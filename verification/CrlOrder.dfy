/**
 Exactly when no order of deliveries runs into a limit, so that the order does not matter: when
 there is room for the largest list of every issuer at once.
 */
module CrlOrder {
  import opened Prelude
  import opened CrlSpec
  import opened CrlRefinement
  import opened CrlTheorems
  import opened CrlConvergence

  /* ---------- totals ---------- */

  ghost function Total(sizes: map<Bytes, nat>): nat {
    if sizes == map[] then 0 else var i :| i in sizes; sizes[i] + Total(sizes - {i})
  }

  lemma {:induction false} TotalTake(sizes: map<Bytes, nat>, i: Bytes)
    requires i in sizes
    ensures Total(sizes) == sizes[i] + Total(sizes - {i})
    decreases |sizes|
  {
    var j :| j in sizes && Total(sizes) == sizes[j] + Total(sizes - {j});
    if j != i {
      RemovedKey(sizes, i);
      RemovedKey(sizes, j);
      TotalTake(sizes - {j}, i);
      TotalTake(sizes - {i}, j);
      assert sizes - {j} - {i} == sizes - {i} - {j};
    }
  }

  lemma {:induction false} TotalMonotone(a: map<Bytes, nat>, b: map<Bytes, nat>)
    requires forall i :: i in a ==> i in b && a[i] <= b[i]
    ensures Total(a) <= Total(b)
    decreases |a|
  {
    if a != map[] {
      var i :| i in a;
      RemovedKey(a, i);
      TotalTake(a, i);
      TotalTake(b, i);
      TotalMonotone(a - {i}, b - {i});
    }
  }

  ghost function SizesOf(m: Lists): map<Bytes, nat> {
    map i | i in m :: |m[i].entries|
  }

  lemma {:induction false} EntriesTotal(m: Lists)
    ensures |AllEntries(m)| == Total(SizesOf(m))
    decreases |m|
  {
    if m == map[] {
      assert SizesOf(m) == map[];
    } else {
      var i :| i in m && AllEntries(m) == multiset(m[i].entries) + AllEntries(m - {i});
      RemovedKey(m, i);
      EntriesTotal(m - {i});
      assert SizesOf(m - {i}) == SizesOf(m) - {i};
      TotalTake(SizesOf(m), i);
    }
  }

  /* ---------- deliveries to one authority ---------- */

  ghost function IssuerOf(c: Call, name: Bytes): Bytes
    requires Delivers(c, name)
  {
    c.parsed.value.entries[0].issuer
  }

  ghost function Deliver(m: Lists, crl: Crl): Lists
    requires crl.entries != []
  {
    match Accept(m, crl)
    case Ok(after) => after
    case Err(_) => m
  }

  /** `Unhindered` in terms of the issuers' newest lists. */
  ghost predicate Smooth(m: Lists, calls: seq<Call>, name: Bytes)
    requires AllDeliver(calls, name)
    decreases |calls|
  {
    calls != [] ==>
      && (Accept(m, calls[0].parsed.value).Err? ==> Accept(m, calls[0].parsed.value).error == NotNewerCrl)
      && Smooth(Deliver(m, calls[0].parsed.value), calls[1..], name)
  }

  /** A delivery that passes every check that does not depend on the store. */
  ghost predicate WellFormed(cfg: Config, c: Call, name: Bytes) {
    && Delivers(c, name) && c.signed && |name| <= cfg.maxNameLength && InputError(c.input).None?
    && AllFit(c.parsed.value.entries)
  }

  ghost predicate AllWellFormed(cfg: Config, calls: seq<Call>, name: Bytes) {
    forall i :: 0 <= i < |calls| ==> WellFormed(cfg, calls[i], name)
  }

  lemma DeliveryAnswer(cfg: Config, r: Registry, c: Call, name: Bytes)
    requires WellFormed(cfg, c, name) && name in r
    ensures var answer, accepted := AbstractApply(cfg, r, c), Accept(r[name].1, c.parsed.value);
            && (answer.Ok? <==> accepted.Ok?)
            && (answer.Err? ==> answer.error == accepted.error)
            && name in AbstractNext(cfg, r, c) && AbstractNext(cfg, r, c)[name].1 == Deliver(r[name].1, c.parsed.value)
  {
    hide Accept, InputError;
  }

  lemma {:induction false} SmoothExactly(cfg: Config, s: Store, r: Registry, calls: seq<Call>, name: Bytes,
                                         issuers: set<Bytes>)
    requires Refines(cfg, s, r, issuers) && Distinct(cfg.hash, issuers) && name in r
    requires forall i :: 0 <= i < |calls| ==> Known(calls[i], issuers)
    requires AllDeliver(calls, name) && AllWellFormed(cfg, calls, name)
    ensures Unhindered(cfg, s, calls) <==> Smooth(r[name].1, calls, name)
    decreases |calls|
  {
    hide Refines, Distinct, Known, Apply, Next, AbstractApply, AbstractNext, Accept, Deliver, WellFormed, Delivers;
    if calls != [] {
      assert WellFormed(cfg, calls[0], name) && Known(calls[0], issuers) && Delivers(calls[0], name);
      DeliveryAnswer(cfg, r, calls[0], name);
      StepRefines(cfg, s, r, calls[0], issuers);
      SmoothExactly(cfg, Next(cfg, s, calls[0]), AbstractNext(cfg, r, calls[0]), calls[1..], name, issuers);
    }
  }

  lemma {:induction false} SmoothPrefix(m: Lists, xs: seq<Call>, ys: seq<Call>, name: Bytes)
    requires AllDeliver(xs, name) && AllDeliver(xs + ys, name) && Smooth(m, xs + ys, name)
    ensures Smooth(m, xs, name)
    decreases |xs|
  {
    hide Accept, Deliver;
    if xs != [] {
      assert (xs + ys)[1..] == xs[1..] + ys;
      SmoothPrefix(Deliver(m, xs[0].parsed.value), xs[1..], ys, name);
    }
  }

  /* ---------- the condition ---------- */

  ghost function Largest(ns: set<nat>): (n: nat)
    ensures ns != {} ==> n in ns
    ensures forall k :: k in ns ==> k <= n
  {
    if ns == {} then 0
    else
      var k :| k in ns;
      var rest := Largest(ns - {k});
      assert forall j :: j in ns ==> j == k || j in ns - {k};
      if k > rest || ns - {k} == {} then k else rest
  }

  /** The sizes an issuer's list can have while these lists are delivered: that of the stored list, and
      those of the lists sent that are newer. */
  ghost function Candidates(m: Lists, sent: set<Crl>, i: Bytes): set<nat> {
    (if i in m then {|m[i].entries|} else {})
    + set c | c in sent && c.entries != [] && c.entries[0].issuer == i
              && (i in m ==> m[i].thisUpdate < c.thisUpdate) :: |c.entries|
  }

  ghost function Issuers(sent: set<Crl>): set<Bytes> {
    set c | c in sent && c.entries != [] :: c.entries[0].issuer
  }

  /** The largest of them, for every issuer stored or sent. */
  ghost function Peaks(m: Lists, sent: set<Crl>): map<Bytes, nat> {
    map i | i in m.Keys + Issuers(sent) :: Largest(Candidates(m, sent, i))
  }

  /** There is room for every issuer, and for the largest list of every issuer at once. */
  ghost predicate Roomy(m: Lists, sent: set<Crl>) {
    |Peaks(m, sent)| <= MAX_ISSUERS_PER_CA && Total(Peaks(m, sent)) <= MAX_REVOKED_CERTS_PER_CA
  }

  /* ---------- enough ---------- */

  /** What deliveries of `sent` can make of `m`. */
  ghost predicate Within(now: Lists, m: Lists, sent: set<Crl>) {
    && (forall i :: i in m ==> i in now && m[i].thisUpdate <= now[i].thisUpdate)
    && (forall i :: i in now ==> i in Peaks(m, sent) && |now[i].entries| <= Peaks(m, sent)[i])
  }

  lemma BelowPeak(m: Lists, sent: set<Crl>, crl: Crl)
    requires crl in sent && crl.entries != []
    requires crl.entries[0].issuer in m ==> m[crl.entries[0].issuer].thisUpdate < crl.thisUpdate
    ensures crl.entries[0].issuer in Peaks(m, sent) && |crl.entries| <= Peaks(m, sent)[crl.entries[0].issuer]
  {
    hide Largest;
    var i := crl.entries[0].issuer;
    assert i in Issuers(sent);
    assert |crl.entries| in Candidates(m, sent, i);
  }

  lemma SentWithin(now: Lists, m: Lists, sent: set<Crl>, crl: Crl)
    requires Within(now, m, sent) && crl in sent && crl.entries != []
    requires crl.entries[0].issuer in now ==> now[crl.entries[0].issuer].thisUpdate < crl.thisUpdate
    ensures crl.entries[0].issuer in Peaks(m, sent) && |crl.entries| <= Peaks(m, sent)[crl.entries[0].issuer]
    ensures Within(now[crl.entries[0].issuer := crl], m, sent)
  {
    hide Peaks;
    BelowPeak(m, sent, crl);
  }

  /** Whatever else is stored, a newer list finds room. */
  lemma RoomForOne(now: Lists, peaks: map<Bytes, nat>, crl: Crl)
    requires forall i :: i in now ==> i in peaks && |now[i].entries| <= peaks[i]
    requires crl.entries != [] && AllFit(crl.entries)
    requires crl.entries[0].issuer in peaks && |crl.entries| <= peaks[crl.entries[0].issuer]
    requires |peaks| <= MAX_ISSUERS_PER_CA && Total(peaks) <= MAX_REVOKED_CERTS_PER_CA
    requires crl.entries[0].issuer in now ==> now[crl.entries[0].issuer].thisUpdate < crl.thisUpdate
    ensures Accept(now, crl) == Ok(now[crl.entries[0].issuer := crl])
  {
    hide Obstacle, AllEntries, Total, AllFit;
    var i := crl.entries[0].issuer;
    EntriesTotal(now - {i});
    TotalMonotone(SizesOf(now - {i}), peaks - {i});
    TotalTake(peaks, i);
    ObstacleExactly(crl.entries, |AllEntries(now - {i})|);
    if i !in now { CardinalityOf(now, i, peaks); }
  }

  lemma CardinalityOf(now: Lists, i: Bytes, peaks: map<Bytes, nat>)
    requires now.Keys + {i} <= peaks.Keys && i !in now
    ensures |now| < |peaks|
  {
    SubsetSize(now.Keys + {i}, peaks.Keys);
  }

  lemma {:induction false} SubsetSize(a: set<Bytes>, b: set<Bytes>)
    requires a <= b
    ensures |a| <= |b|
  {
    if a != {} {
      var x :| x in a;
      SubsetSize(a - {x}, b - {x});
    }
  }

  lemma {:induction false} RoomySmooth(m: Lists, sent: set<Crl>, now: Lists, calls: seq<Call>, name: Bytes)
    requires Roomy(m, sent) && Within(now, m, sent)
    requires AllDeliver(calls, name)
    requires forall i :: 0 <= i < |calls| ==>
               calls[i].parsed.value in sent && AllFit(calls[i].parsed.value.entries)
    ensures Smooth(now, calls, name)
    decreases |calls|
  {
    hide Peaks, AllFit, Obstacle, AllEntries, Total;
    if calls != [] {
      var crl := calls[0].parsed.value;
      var i := crl.entries[0].issuer;
      if i in now && crl.thisUpdate <= now[i].thisUpdate {
        RoomySmooth(m, sent, now, calls[1..], name);
      } else {
        SentWithin(now, m, sent, crl);
        RoomForOne(now, Peaks(m, sent), crl);
        RoomySmooth(m, sent, now[i := crl], calls[1..], name);
      }
    }
  }

  /* ---------- needed ---------- */

  /** Within the limits. */
  ghost predicate Fit(m: Lists) {
    |m| <= MAX_ISSUERS_PER_CA && Total(SizesOf(m)) <= MAX_REVOKED_CERTS_PER_CA
  }

  lemma AddedKey<K, V>(m: map<K, V>, k: K, v: V)
    ensures |m[k := v]| == if k in m then |m| else |m| + 1
  {
    assert m[k := v].Keys == m.Keys + {k};
  }

  lemma SizesWith(m: Lists, i: Bytes, crl: Crl)
    ensures Total(SizesOf(m[i := crl])) == |crl.entries| + Total(SizesOf(m - {i}))
  {
    hide Total;
    TotalTake(SizesOf(m[i := crl]), i);
    assert SizesOf(m[i := crl]) - {i} == SizesOf(m - {i});
  }

  lemma SizesWithout(m: Lists, i: Bytes)
    ensures Total(SizesOf(m - {i})) <= Total(SizesOf(m))
  {
    hide Total;
    TotalMonotone(SizesOf(m - {i}), SizesOf(m));
  }

  lemma AcceptKeepsFit(m: Lists, crl: Crl)
    requires Fit(m) && crl.entries != [] && Accept(m, crl).Ok?
    ensures Fit(Accept(m, crl).value)
  {
    hide Obstacle, AllEntries, Total, AllFit, SizesOf;
    var i := crl.entries[0].issuer;
    EntriesTotal(m - {i});
    SizesWith(m, i, crl);
    SizesWithout(m, i);
    AddedKey(m, i, crl);
    ObstacleExactly(crl.entries, |AllEntries(m - {i})|);
  }

  /** The lists of the issuers in `todo` are still those of `m`; all others have their largest size. */
  ghost predicate Climbing(m: Lists, sent: set<Crl>, now: Lists, todo: set<Bytes>) {
    && now.Keys <= Peaks(m, sent).Keys && todo <= Peaks(m, sent).Keys
    && (forall i :: i in todo ==> (i in now <==> i in m) && (i in m ==> now[i] == m[i]))
    && (forall i :: i in Peaks(m, sent) && i !in todo ==> i in now && |now[i].entries| == Peaks(m, sent)[i])
  }

  /** A delivery that brings an issuer its largest list, unless it has it. */
  lemma PeakSent(m: Lists, calls: seq<Call>, name: Bytes, i: Bytes) returns (c: Call)
    requires AllDeliver(calls, name) && i in Peaks(m, Sent(calls, name))
    requires i in m ==> |m[i].entries| != Peaks(m, Sent(calls, name))[i]
    ensures c in calls && Delivers(c, name) && IssuerOf(c, name) == i
    ensures |c.parsed.value.entries| == Peaks(m, Sent(calls, name))[i]
    ensures i in m ==> m[i].thisUpdate < c.parsed.value.thisUpdate
  {
    var sent := Sent(calls, name);
    if i !in m {
      assert i in Issuers(sent);
      var crl :| crl in sent && crl.entries != [] && crl.entries[0].issuer == i;
      assert |crl.entries| in Candidates(m, sent, i);
    }
    assert Candidates(m, sent, i) != {} by { if i in m { assert |m[i].entries| in Candidates(m, sent, i); } }
    assert Peaks(m, sent)[i] in Candidates(m, sent, i);
    var crl :| crl in sent && crl.entries != [] && crl.entries[0].issuer == i
               && (i in m ==> m[i].thisUpdate < crl.thisUpdate)
               && |crl.entries| == Peaks(m, sent)[i];
    var k :| 0 <= k < |calls| && calls[k].parsed.value == crl;
    c := calls[k];
  }

  lemma Summit(m: Lists, sent: set<Crl>, now: Lists)
    requires Climbing(m, sent, now, {}) && Fit(now)
    ensures Roomy(m, sent)
  {
    hide Peaks, Total;
    assert now.Keys == Peaks(m, sent).Keys;
    assert SizesOf(now) == Peaks(m, sent);
    assert |now| == |SizesOf(now)| by { assert SizesOf(now).Keys == now.Keys; }
  }

  lemma ClimbOne(m: Lists, sent: set<Crl>, now: Lists, todo: set<Bytes>, i: Bytes, crl: Crl)
    requires Climbing(m, sent, now, todo) && i in todo && |crl.entries| == Peaks(m, sent)[i]
    ensures Climbing(m, sent, now[i := crl], todo - {i})
    ensures i in m && m[i] == crl ==> now[i := crl] == now
  {
    hide Peaks;
  }

  /** Some of the calls, one for an issuer, which together need the room for all the largest lists. */
  lemma {:induction false} Climb(m: Lists, calls: seq<Call>, name: Bytes, now: Lists,
                                 todo: set<Bytes>) returns (picks: seq<Call>)
    requires AllDeliver(calls, name) && Climbing(m, Sent(calls, name), now, todo)
    ensures AllDeliver(picks, name) && multiset(picks) <= multiset(calls)
    ensures forall c :: c in picks ==> Delivers(c, name) && IssuerOf(c, name) in todo
    ensures Fit(now) && Smooth(now, picks, name) ==> Roomy(m, Sent(calls, name))
    decreases |todo|
  {
    hide Peaks, Sent, Total, Accept, AllDeliver, Climbing, Fit, Smooth, Roomy;
    var sent := Sent(calls, name);
    if todo == {} {
      picks := [];
      NoneDeliver(name);
      if Fit(now) { Summit(m, sent, now); }
    } else {
      var i :| i in todo;
      ClimbingAt(m, sent, now, todo, i);
      if i in m && |m[i].entries| == Peaks(m, sent)[i] {
        ClimbOne(m, sent, now, todo, i, m[i]);
        picks := Climb(m, calls, name, now, todo - {i});
      } else {
        var c := PeakSent(m, calls, name, i);
        var crl := c.parsed.value;
        ClimbOne(m, sent, now, todo, i, crl);
        var rest := Climb(m, calls, name, now[i := crl], todo - {i});
        picks := [c] + rest;
        OneMore(c, rest, calls, name);
        if Fit(now) && Smooth(now, picks, name) { FirstPick(now, c, rest, name); }
      }
    }
  }

  lemma ClimbingAt(m: Lists, sent: set<Crl>, now: Lists, todo: set<Bytes>, i: Bytes)
    requires Climbing(m, sent, now, todo) && i in todo
    ensures i in Peaks(m, sent) && (i in now <==> i in m) && (i in m ==> now[i] == m[i])
  {
    hide Peaks;
  }

  /** A newer list that is not refused for limits is accepted, within the limits. */
  lemma FirstPick(now: Lists, c: Call, rest: seq<Call>, name: Bytes)
    requires Delivers(c, name) && AllDeliver(rest, name) && AllDeliver([c] + rest, name)
    requires IssuerOf(c, name) in now ==> now[IssuerOf(c, name)].thisUpdate < c.parsed.value.thisUpdate
    requires Fit(now) && Smooth(now, [c] + rest, name)
    ensures Fit(now[IssuerOf(c, name) := c.parsed.value])
    ensures Smooth(now[IssuerOf(c, name) := c.parsed.value], rest, name)
  {
    hide Accept, Fit;
    assert ([c] + rest)[1..] == rest;
    NewerAccepted(now, c.parsed.value);
    AcceptKeepsFit(now, c.parsed.value);
  }

  lemma NoneDeliver(name: Bytes)
    ensures AllDeliver([], name)
  {
  }

  lemma OneMore(c: Call, rest: seq<Call>, calls: seq<Call>, name: Bytes)
    requires Delivers(c, name) && AllDeliver(rest, name) && c in calls && c !in rest
    requires multiset(rest) <= multiset(calls)
    ensures AllDeliver([c] + rest, name) && multiset([c] + rest) <= multiset(calls)
    ensures forall x :: x in [c] + rest ==> x == c || x in rest
  {
    assert multiset([c] + rest) == multiset{c} + multiset(rest);
    assert multiset(rest)[c] == 0 && multiset(calls)[c] >= 1;
  }

  lemma NewerAccepted(now: Lists, crl: Crl)
    requires crl.entries != []
    requires (crl.entries[0].issuer in now ==> now[crl.entries[0].issuer].thisUpdate < crl.thisUpdate)
    requires Accept(now, crl).Err? ==> Accept(now, crl).error == NotNewerCrl
    ensures Accept(now, crl) == Ok(now[crl.entries[0].issuer := crl])
  {
    NeverStale(crl.entries, |AllEntries(now - {crl.entries[0].issuer})|);
  }

  /* ---------- what is stored ---------- */

  lemma {:induction false} OnlyIssuer(store: seq<Revoked>, i: Bytes)
    ensures forall k :: 0 <= k < |Only(store, i)| ==> Only(store, i)[k].issuer == i
    ensures Only(store, i) != [] <==> exists e :: e in store && e.issuer == i
  {
    if store != [] {
      OnlyIssuer(store[1..], i);
      assert forall e :: e in store <==> e == store[0] || e in store[1..];
    }
  }

  /** The issuers' lists as an authority's storage has them: the entries of each issuer, with the version
      recorded for it. */
  ghost function Stored(cfg: Config, info: CaInfo, store: seq<Revoked>): Lists {
    var present := set e | e in store :: e.issuer;
    map i | i in present && cfg.hash(i) in info.versions ::
      OnlyIssuer(store, i);
      Crl(info.versions[cfg.hash(i)], Only(store, i))
  }

  lemma StoredHas(cfg: Config, info: CaInfo, store: seq<Revoked>, i: Bytes)
    ensures i in Stored(cfg, info, store) <==> Only(store, i) != [] && cfg.hash(i) in info.versions
    ensures i in Stored(cfg, info, store) ==>
              var crl := Stored(cfg, info, store)[i];
              crl.thisUpdate == info.versions[cfg.hash(i)] && crl.entries == Only(store, i)
  {
    hide Only;
    OnlyIssuer(store, i);
  }

  lemma StoredAgrees(cfg: Config, info: CaInfo, store: seq<Revoked>, root: Bytes, m: Lists, i: Bytes)
    requires CaRefines(cfg, info, store, root, m)
    ensures i in Stored(cfg, info, store) <==> i in m
    ensures i in m ==> Stored(cfg, info, store)[i] == m[i]
  {
    hide Only, Stored;
    StoredHas(cfg, info, store, i);
  }

  lemma StoredIs(cfg: Config, info: CaInfo, store: seq<Revoked>, root: Bytes, m: Lists)
    requires CaRefines(cfg, info, store, root, m)
    ensures Stored(cfg, info, store) == m
  {
    hide Stored, CaRefines;
    forall i ensures (i in Stored(cfg, info, store) <==> i in m) && (i in m ==> Stored(cfg, info, store)[i] == m[i]) {
      StoredAgrees(cfg, info, store, root, m, i);
    }
    SameMap(Stored(cfg, info, store), m);
  }

  lemma SameMap(a: Lists, b: Lists)
    requires forall i :: (i in a <==> i in b) && (i in b ==> a[i] == b[i])
    ensures a == b
  {
    assert a.Keys == b.Keys;
  }

  ghost function StoredAt(cfg: Config, s: Store, name: Bytes): Lists
    requires name in s.cas && name in s.revoked
  {
    Stored(cfg, s.cas[name], s.revoked[name])
  }

  lemma StoredRefines(cfg: Config, s: Store, r: Registry, name: Bytes, issuers: set<Bytes>)
    requires Refines(cfg, s, r, issuers) && name in s.cas
    ensures name in r && name in s.revoked && StoredAt(cfg, s, name) == r[name].1
  {
    hide CaRefines, Stored;
    assert CaRefines(cfg, s.cas[name], s.revoked[name], r[name].0, r[name].1);
    StoredIs(cfg, s.cas[name], s.revoked[name], r[name].0, r[name].1);
  }

  /* ---------- the theorems ---------- */

  /** Every order of these deliveries is unhindered. */
  ghost predicate EveryOrder(cfg: Config, s: Store, calls: seq<Call>) {
    forall ys :: multiset(ys) == multiset(calls) ==> Unhindered(cfg, s, ys)
  }

  lemma {:induction false} SomeOrder(ms: multiset<Call>) returns (ys: seq<Call>)
    ensures multiset(ys) == ms
    decreases |ms|
  {
    if ms == multiset{} {
      ys := [];
    } else {
      var c :| c in ms;
      var rest := SomeOrder(ms - multiset{c});
      ys := [c] + rest;
    }
  }

  lemma SameCalls(xs: seq<Call>, ys: seq<Call>, name: Bytes, cfg: Config, issuers: set<Bytes>)
    requires multiset(xs) == multiset(ys) && AllDeliver(xs, name) && AllWellFormed(cfg, xs, name)
    requires forall c :: c in xs ==> Known(c, issuers)
    ensures AllDeliver(ys, name) && AllWellFormed(cfg, ys, name) && Sent(ys, name) == Sent(xs, name)
    ensures forall c :: c in ys ==> Known(c, issuers)
  {
    assert forall c :: c in xs <==> c in multiset(xs);
    assert forall c :: c in ys <==> c in multiset(ys);
    forall i | 0 <= i < |ys| ensures Delivers(ys[i], name) && WellFormed(cfg, ys[i], name) && Known(ys[i], issuers) {
      assert ys[i] in xs;
    }
    SentSubset(xs, ys, name);
    SentSubset(ys, xs, name);
  }

  lemma SentSubset(xs: seq<Call>, ys: seq<Call>, name: Bytes)
    requires AllDeliver(xs, name) && AllDeliver(ys, name) && forall c :: c in xs ==> c in ys
    ensures Sent(xs, name) <= Sent(ys, name)
  {
    forall crl | crl in Sent(xs, name) ensures crl in Sent(ys, name) {
      var i :| 0 <= i < |xs| && xs[i].parsed.value == crl;
      assert xs[i] in ys;
      var j :| 0 <= j < |ys| && ys[j] == xs[i];
    }
  }

  lemma StartsWithin(m: Lists, sent: set<Crl>)
    ensures Within(m, m, sent)
  {
    forall i | i in m ensures i in Peaks(m, sent) && |m[i].entries| <= Peaks(m, sent)[i] {
      assert |m[i].entries| in Candidates(m, sent, i);
    }
  }

  lemma StartsClimbing(m: Lists, sent: set<Crl>)
    ensures Climbing(m, sent, m, Peaks(m, sent).Keys)
  {
  }

  /** In related states, if there is room, nothing is hindered. */
  lemma RoomyUnhindered(cfg: Config, s: Store, r: Registry, calls: seq<Call>, name: Bytes, issuers: set<Bytes>)
    requires Refines(cfg, s, r, issuers) && Distinct(cfg.hash, issuers) && name in r
    requires forall c :: c in calls ==> Known(c, issuers)
    requires AllDeliver(calls, name) && AllWellFormed(cfg, calls, name)
    requires Roomy(r[name].1, Sent(calls, name))
    ensures Unhindered(cfg, s, calls)
  {
    hide Refines, Distinct, Known, Roomy, Unhindered, Smooth, Within;
    var sent := Sent(calls, name);
    StartsWithin(r[name].1, sent);
    RoomySmooth(r[name].1, sent, r[name].1, calls, name);
    SmoothExactly(cfg, s, r, calls, name, issuers);
  }

  /** A reachable authority is within its limits. */
  lemma ReachableFit(cfg: Config, history: seq<Call>, name: Bytes, issuers: set<Bytes>)
    requires Distinct(cfg.hash, issuers) && forall c :: c in history ==> Known(c, issuers)
    requires name in Run(cfg, EMPTY, history).cas
    ensures name in AbstractRun(cfg, map[], history) && Fit(AbstractRun(cfg, map[], history)[name].1)
    ensures Refines(cfg, Run(cfg, EMPTY, history), AbstractRun(cfg, map[], history), issuers)
  {
    hide Distinct, Known, Run, AbstractRun, Refines, Mirrors, Bookkept, Fit;
    var s, r := Run(cfg, EMPTY, history), AbstractRun(cfg, map[], history);
    EmptyRelated(cfg, issuers);
    RunRefines(cfg, EMPTY, map[], history, issuers);
    RefinesMirrors(cfg, s, r, name, issuers);
    AlwaysBookkept(cfg, history);
    MirroredFit(cfg, s, r, name, issuers);
  }

  lemma MirroredFit(cfg: Config, s: Store, r: Registry, name: Bytes, issuers: set<Bytes>)
    requires Bookkept(cfg, s) && Mirrors(cfg, s, r, name, issuers) && name in s.cas
    ensures name in r && Fit(r[name].1)
  {
    hide Total, AllEntries, Only, KeysMatch, AllFit, Bookkept, Mirrors;
    BookkeptCa(cfg, s, name);
    MirroredSize(cfg, s, r, name, issuers);
    EntriesTotal(r[name].1);
  }

  lemma MirroredSize(cfg: Config, s: Store, r: Registry, name: Bytes, issuers: set<Bytes>)
    requires Mirrors(cfg, s, r, name, issuers) && name in s.cas
    ensures name in r && name in s.revoked && |AllEntries(r[name].1)| == |s.revoked[name]|
    ensures |r[name].1| == |s.cas[name].versions|
  {
    hide AllEntries, Only;
    assert |multiset(s.revoked[name])| == |s.revoked[name]|;
  }

  /** After any history: every order of well-formed deliveries to an authority is free of refusals for
      limits if and only if there is room for its issuers, stored and sent, and for the
      largest list each of them can have meanwhile, all at once. */
  lemma OrderFreeExactly(cfg: Config, history: seq<Call>, calls: seq<Call>, name: Bytes, issuers: set<Bytes>)
    requires Distinct(cfg.hash, issuers) && forall c :: c in history || c in calls ==> Known(c, issuers)
    requires AllDeliver(calls, name) && AllWellFormed(cfg, calls, name)
    requires name in Run(cfg, EMPTY, history).cas
    ensures var s := Run(cfg, EMPTY, history);
            name in s.revoked && (EveryOrder(cfg, s, calls) <==> Roomy(StoredAt(cfg, s, name), Sent(calls, name)))
  {
    hide Distinct, Known, Run, AbstractRun, Refines, Roomy, Unhindered, Smooth, Fit, AllDeliver, AllWellFormed, Sent,
         Peaks, Climbing, StoredAt;
    ReachableFit(cfg, history, name, issuers);
    var s, r := Run(cfg, EMPTY, history), AbstractRun(cfg, map[], history);
    StoredRefines(cfg, s, r, name, issuers);
    var m := r[name].1;
    if Roomy(m, Sent(calls, name)) {
      forall ys | multiset(ys) == multiset(calls) ensures Unhindered(cfg, s, ys) {
        SameCalls(calls, ys, name, cfg, issuers);
        RoomyUnhindered(cfg, s, r, ys, name, issuers);
      }
    }
    if EveryOrder(cfg, s, calls) {
      StartsClimbing(m, Sent(calls, name));
      var picks := Climb(m, calls, name, m, Peaks(m, Sent(calls, name)).Keys);
      var rest := SomeOrder(multiset(calls) - multiset(picks));
      var ys := picks + rest;
      assert multiset(ys) == multiset(calls);
      SameCalls(calls, ys, name, cfg, issuers);
      SmoothExactly(cfg, s, r, ys, name, issuers);
      SmoothPrefix(m, picks, rest, name);
    }
  }

  /** Under that condition, two orders, or two multiplicities, of the same deliveries on top of any
      history lead to the same authority record and to the same revoked certificates. */
  lemma RoomyDeliveriesConverge(cfg: Config, history: seq<Call>, xs: seq<Call>, ys: seq<Call>, name: Bytes,
                                issuers: set<Bytes>)
    requires Distinct(cfg.hash, issuers)
    requires forall c :: c in history || c in xs || c in ys ==> Known(c, issuers)
    requires AllDeliver(xs, name) && AllDeliver(ys, name) && AllWellFormed(cfg, xs, name)
    requires AllWellFormed(cfg, ys, name)
    requires Sent(xs, name) == Sent(ys, name) && Consistent(Sent(xs, name))
    requires var s := Run(cfg, EMPTY, history);
             name in s.cas && name in s.revoked && Roomy(StoredAt(cfg, s, name), Sent(xs, name))
    ensures var s := Run(cfg, EMPTY, history);
            var a, b := Run(cfg, s, xs), Run(cfg, s, ys);
            && name in a.cas && name in b.cas && a.cas[name] == b.cas[name]
            && name in a.revoked && name in b.revoked
            && multiset(a.revoked[name]) == multiset(b.revoked[name])
            && forall i :: Only(a.revoked[name], i) == Only(b.revoked[name], i)
  {
    hide Distinct, Known, Run, AbstractRun, Refines, Roomy, Unhindered, Sent, Only, Consistent, AllDeliver,
         AllWellFormed, Fit, StoredAt;
    ReachableFit(cfg, history, name, issuers);
    var s, r := Run(cfg, EMPTY, history), AbstractRun(cfg, map[], history);
    StoredRefines(cfg, s, r, name, issuers);
    RoomyUnhindered(cfg, s, r, xs, name, issuers);
    RoomyUnhindered(cfg, s, r, ys, name, issuers);
    DeliveriesConverge(cfg, history, xs, ys, name, issuers);
  }

  /* ---------- when there is no room ---------- */

  /** Eleven issuers that can be stored; one authority has room for ten. */
  ghost predicate Eleven(names: seq<Bytes>) {
    && |names| == 11
    && (forall j :: 0 <= j < 11 ==> |names[j]| <= MAX_CERT_ISSUER_LENGTH)
    && (forall j, k :: 0 <= j < k < 11 ==> names[j] != names[k])
  }

  /** Eleven inputs within the size limits. */
  ghost predicate Readable(inputs: seq<CrlInput>) {
    |inputs| == 11 && forall j :: 0 <= j < 11 ==> InputError(inputs[j]).None?
  }

  /** Their first lists, up to the `k`-th. */
  ghost function Firsts(names: seq<Bytes>, k: nat): Lists
    requires k <= |names|
  {
    if k == 0 then map[] else Firsts(names, k - 1)[names[k - 1] := OneEntry(names[k - 1])]
  }

  /** Register an authority, then deliver the first `k` lists. */
  function Deliveries(names: seq<Bytes>, inputs: seq<CrlInput>, k: nat): seq<Call>
    requires k <= |names| == |inputs|
  {
    if k == 0 then [START] else Deliveries(names, inputs, k - 1) + [Sole(names[k - 1], inputs[k - 1])]
  }

  lemma {:induction false} FirstsSize(names: seq<Bytes>, k: nat)
    requires Eleven(names) && k <= 11
    ensures |Firsts(names, k)| == k && |AllEntries(Firsts(names, k))| == k
    ensures forall i :: i in Firsts(names, k) <==> exists j :: 0 <= j < k && names[j] == i
    ensures forall j :: 0 <= j < k ==> Firsts(names, k)[names[j]] == OneEntry(names[j])
  {
    hide Total, AllEntries;
    EntriesTotal(Firsts(names, k));
    if k == 0 {
      NoSizes();
    } else {
      FirstsSize(names, k - 1);
      var m, i := Firsts(names, k - 1), names[k - 1];
      assert i !in m && m - {i} == m;
      EntriesTotal(m);
      SizesWith(m, i, OneEntry(i));
      AddedKey(m, i, OneEntry(i));
    }
  }

  lemma NoSizes()
    ensures Total(SizesOf(map[])) == 0
  {
    var none: Lists := map[];
    assert SizesOf(none) == map[];
  }

  lemma {:induction false} RunLast(cfg: Config, r: Registry, calls: seq<Call>, c: Call)
    ensures AbstractRun(cfg, r, calls + [c]) == AbstractNext(cfg, AbstractRun(cfg, r, calls), c)
    decreases |calls|
  {
    hide AbstractNext;
    if calls == [] {
      assert ([] + [c])[1..] == [];
    } else {
      assert (calls + [c])[1..] == calls[1..] + [c];
      RunLast(cfg, AbstractNext(cfg, r, calls[0]), calls[1..], c);
    }
  }

  /** Up to ten are accepted; the eleventh is refused. */
  lemma NextFirst(cfg: Config, names: seq<Bytes>, k: nat)
    requires Eleven(names) && k < 11
    ensures Accept(Firsts(names, k), OneEntry(names[k]))
         == if k < 10 then Ok(Firsts(names, k + 1)) else Err(TooManyIssuers)
  {
    hide AllEntries, Obstacle;
    var m, i := Firsts(names, k), names[k];
    FirstsSize(names, k);
    assert i !in m && m - {i} == m;
    assert AllFit(OneEntry(i).entries);
    ObstacleExactly(OneEntry(i).entries, |AllEntries(m)|);
  }

  lemma {:induction false} Delivered(cfg: Config, names: seq<Bytes>, inputs: seq<CrlInput>, k: nat)
    requires cfg.maxNameLength >= 1 && Eleven(names) && k <= 11 && Readable(inputs)
    ensures AbstractRun(cfg, map[], Deliveries(names, inputs, k))
              == map[NAME := ([0], Firsts(names, if k < 10 then k else 10))]
  {
    hide AbstractRun, Accept, InputError, Firsts;
    if k == 0 {
      NoCall(cfg);
      RunLast(cfg, map[], [], START);
      assert [] + [START] == [START];
      Started(cfg);
      NoFirsts(names);
    } else {
      Delivered(cfg, names, inputs, k - 1);
      RunLast(cfg, map[], Deliveries(names, inputs, k - 1), Sole(names[k - 1], inputs[k - 1]));
      NextFirst(cfg, names, k - 1);
    }
  }

  lemma NoFirsts(names: seq<Bytes>)
    ensures Firsts(names, 0) == map[]
  {
  }

  lemma NoCall(cfg: Config)
    ensures AbstractRun(cfg, map[], []) == map[]
  {
  }

  lemma {:induction false} DeliveriesKnown(names: seq<Bytes>, inputs: seq<CrlInput>, k: nat, issuers: set<Bytes>)
    requires k <= |names| == |inputs| && forall j :: 0 <= j < |names| ==> names[j] in issuers
    ensures forall i :: 0 <= i < |Deliveries(names, inputs, k)| ==> Known(Deliveries(names, inputs, k)[i], issuers)
  {
    if k > 0 { DeliveriesKnown(names, inputs, k - 1, issuers); }
  }

  /** Delivered in this order, the tenth issuer's list is stored and the eleventh's is not. */
  lemma TenthStays(cfg: Config, names: seq<Bytes>, inputs: seq<CrlInput>, issuers: set<Bytes>)
    requires cfg.maxNameLength >= 1 && Eleven(names) && Readable(inputs)
    requires Distinct(cfg.hash, issuers) && forall j :: 0 <= j < |names| ==> names[j] in issuers
    ensures var s := Run(cfg, EMPTY, Deliveries(names, inputs, 11));
            && NAME in s.revoked
            && Only(s.revoked[NAME], names[9]) == OneEntry(names[9]).entries
            && Only(s.revoked[NAME], names[10]) == []
  {
    hide Run, AbstractRun, Known, Distinct, Deliveries, Only, InputError, Firsts;
    DeliveriesKnown(names, inputs, 11, issuers);
    StorageRefines(cfg, Deliveries(names, inputs, 11), issuers, NAME);
    Delivered(cfg, names, inputs, 11);
    FirstsSize(names, 10);
    assert names[10] !in Firsts(names, 10);
  }

  /** After nine issuers, two more: whichever comes first is stored and the other is refused. The
      issuers' lists have one entry each. */
  lemma LimitsMakeOrderMatter(cfg: Config, names: seq<Bytes>, inputs: seq<CrlInput>, issuers: set<Bytes>)
    requires cfg.maxNameLength >= 1 && Eleven(names) && Readable(inputs)
    requires Distinct(cfg.hash, issuers) && forall j :: 0 <= j < |names| ==> names[j] in issuers
    ensures var nine, x, y := Deliveries(names, inputs, 9), Sole(names[9], inputs[9]), Sole(names[10], inputs[10]);
            var a, b := Run(cfg, EMPTY, nine + [x] + [y]), Run(cfg, EMPTY, nine + [y] + [x]);
            && NAME in a.revoked && Only(a.revoked[NAME], names[9]) != [] && Only(a.revoked[NAME], names[10]) == []
            && NAME in b.revoked && Only(b.revoked[NAME], names[9]) == [] && Only(b.revoked[NAME], names[10]) != []
  {
    hide Run, Known, Distinct, Only, InputError;
    var swapped, exchanged := names[..9] + [names[10], names[9]], inputs[..9] + [inputs[10], inputs[9]];
    TenthStays(cfg, names, inputs, issuers);
    TenthStays(cfg, swapped, exchanged, issuers);
    SameStart(names, inputs, swapped, exchanged, 9);
    assert Deliveries(names, inputs, 11) == Deliveries(names, inputs, 10) + [Sole(names[10], inputs[10])];
    assert Deliveries(swapped, exchanged, 11)
      == Deliveries(swapped, exchanged, 10) + [Sole(swapped[10], exchanged[10])];
  }

  lemma {:induction false} SameStart(a: seq<Bytes>, x: seq<CrlInput>, b: seq<Bytes>, y: seq<CrlInput>, k: nat)
    requires k <= |a| == |x| && k <= |b| == |y| && forall j :: 0 <= j < k ==> a[j] == b[j] && x[j] == y[j]
    ensures Deliveries(a, x, k) == Deliveries(b, y, k)
  {
    if k > 0 { SameStart(a, x, b, y, k - 1); }
  }
}
