/** The order in which revocation lists reach an authority does not matter as long as no delivery runs into a limit. */
module CrlConvergence {
  import opened Prelude
  import opened CrlSpec
  import opened CrlRefinement
  import opened CrlTheorems

  /** The call delivers a non-empty list to this authority. */
  ghost predicate Delivers(c: Call, name: Bytes) {
    c.Update? && c.name == name && c.parsed.Some? && c.parsed.value.entries != []
  }

  ghost predicate AllDeliver(calls: seq<Call>, name: Bytes) {
    forall i :: 0 <= i < |calls| ==> Delivers(calls[i], name)
  }

  ghost function Sent(calls: seq<Call>, name: Bytes): set<Crl>
    requires AllDeliver(calls, name)
  {
    set i | 0 <= i < |calls| :: calls[i].parsed.value
  }

  /** Every delivery is accepted or refused as not newer. */
  ghost predicate Unhindered(cfg: Config, s: Store, calls: seq<Call>)
    decreases |calls|
  {
    calls != [] ==>
      && (Apply(cfg, s, calls[0]).Err? ==> Apply(cfg, s, calls[0]).error == NotNewerCrl)
      && Unhindered(cfg, Next(cfg, s, calls[0]), calls[1..])
  }

  /** An issuer publishes at most one list per `thisUpdate`. */
  ghost predicate Consistent(sent: set<Crl>) {
    forall a, b :: a in sent && b in sent && a.entries != [] && b.entries != [] ==>
      a.entries[0].issuer == b.entries[0].issuer ==>
      a.thisUpdate == b.thisUpdate ==> a == b
  }

  /** `now` holds, for every issuer, the newest among what `was` held and what was sent. */
  ghost predicate NewestOf(now: Lists, was: Lists, sent: set<Crl>) {
    && (forall i :: i in was ==> i in now && was[i].thisUpdate <= now[i].thisUpdate)
    && (forall c :: c in sent && c.entries != [] ==>
          c.entries[0].issuer in now && c.thisUpdate <= now[c.entries[0].issuer].thisUpdate)
    && (forall i :: i in now ==>
          || (i in was && now[i] == was[i])
          || (&& now[i] in sent && now[i].entries != [] && now[i].entries[0].issuer == i
              && (i in was ==> was[i].thisUpdate < now[i].thisUpdate)))
  }

  lemma NewestUnique(was: Lists, sent: set<Crl>, x: Lists, y: Lists)
    requires NewestOf(x, was, sent) && NewestOf(y, was, sent) && Consistent(sent)
    ensures x == y
  {
    assert x.Keys == y.Keys by {
      forall i ensures i in x <==> i in y {
        if i in x { assert i in was || x[i] in sent; }
        if i in y { assert i in was || y[i] in sent; }
      }
    }
    forall i | i in x ensures x[i] == y[i] {
      if x[i] in sent { assert x[i].thisUpdate <= y[i].thisUpdate || i in was; }
      if y[i] in sent { assert y[i].thisUpdate <= x[i].thisUpdate || i in was; }
    }
  }

  lemma NewestStep(now: Lists, mid: Lists, was: Lists, crl: Crl, rest: set<Crl>)
    requires crl.entries != [] && NewestOf(now, mid, rest)
    requires var issuer := crl.entries[0].issuer;
             if issuer in was && crl.thisUpdate <= was[issuer].thisUpdate then mid == was else mid == was[issuer := crl]
    ensures NewestOf(now, was, {crl} + rest)
  {
    var issuer := crl.entries[0].issuer;
    assert issuer in mid && crl.thisUpdate <= mid[issuer].thisUpdate;
    forall i | i in now
      ensures || (i in was && now[i] == was[i])
              || (&& now[i] in {crl} + rest && now[i].entries != [] && now[i].entries[0].issuer == i
                  && (i in was ==> was[i].thisUpdate < now[i].thisUpdate))
    {
      if i in was { assert i in mid && was[i].thisUpdate <= mid[i].thisUpdate; }
    }
  }

  /** A delivery on the simple machine. */
  lemma DeliverStep(cfg: Config, s: Store, r: Registry, c: Call, name: Bytes, issuers: set<Bytes>)
    requires Refines(cfg, s, r, issuers) && Known(c, issuers) && Distinct(cfg.hash, issuers)
    requires name in r && Delivers(c, name)
    requires Apply(cfg, s, c).Err? ==> Apply(cfg, s, c).error == NotNewerCrl
    ensures var crl, was, after := c.parsed.value, r[name].1, AbstractNext(cfg, r, c);
            var issuer := crl.entries[0].issuer;
            && name in after
            && after == r[name := (r[name].0, after[name].1)]
            && (if issuer in was && crl.thisUpdate <= was[issuer].thisUpdate then after[name].1 == was
                else after[name].1 == was[issuer := crl])
  {
    hide Refines, Distinct, Known, Obstacle, AllEntries, Apply, InputError;
    StepRefines(cfg, s, r, c, issuers);
    NeverStale(c.parsed.value.entries, |AllEntries(r[name].1 - {c.parsed.value.entries[0].issuer})|);
    NeverStaleInput(c.input);
    assert r[name := (r[name].0, r[name].1)] == r;
  }

  lemma NeverStaleInput(input: CrlInput)
    ensures InputError(input) != Some(NotNewerCrl)
  {
  }

  lemma SentSplit(calls: seq<Call>, name: Bytes)
    requires AllDeliver(calls, name) && calls != []
    ensures AllDeliver(calls[1..], name)
    ensures Sent(calls, name) == {calls[0].parsed.value} + Sent(calls[1..], name)
  {
    forall c | c in Sent(calls, name) ensures c in {calls[0].parsed.value} + Sent(calls[1..], name) {
      var i :| 0 <= i < |calls| && calls[i].parsed.value == c;
      if i > 0 { assert calls[1..][i - 1] == calls[i]; }
    }
    forall c | c in Sent(calls[1..], name) ensures c in Sent(calls, name) {
      var i :| 0 <= i < |calls[1..]| && calls[1..][i].parsed.value == c;
      assert calls[i + 1].parsed.value == c;
    }
  }

  /** After any unhindered deliveries every issuer has its newest list. */
  lemma {:induction false} DeliverNewest(cfg: Config, s: Store, r: Registry, calls: seq<Call>, name: Bytes,
                                         issuers: set<Bytes>)
    requires Refines(cfg, s, r, issuers) && Distinct(cfg.hash, issuers)
    requires forall i :: 0 <= i < |calls| ==> Known(calls[i], issuers)
    requires name in r && AllDeliver(calls, name) && Unhindered(cfg, s, calls)
    ensures var after := AbstractRun(cfg, r, calls);
            && name in after
            && after == r[name := (r[name].0, after[name].1)]
            && NewestOf(after[name].1, r[name].1, Sent(calls, name))
    decreases |calls|
  {
    hide Refines, Distinct, Known, Apply, Next, AbstractNext, NewestOf;
    if calls == [] {
      assert Sent(calls, name) == {};
      NothingSent(r[name].1);
      assert r[name := (r[name].0, r[name].1)] == r;
    } else {
      var c := calls[0];
      var s1, r1 := Next(cfg, s, c), AbstractNext(cfg, r, c);
      SentSplit(calls, name);
      DeliverStep(cfg, s, r, c, name, issuers);
      StepRefines(cfg, s, r, c, issuers);
      DeliverNewest(cfg, s1, r1, calls[1..], name, issuers);
      NewestStep(AbstractRun(cfg, r, calls)[name].1, r1[name].1, r[name].1, c.parsed.value, Sent(calls[1..], name));
    }
  }

  lemma NothingSent(m: Lists)
    ensures NewestOf(m, m, {})
  {
  }

  /** Two stores related to the same registry agree but for the order of issuers in the vector. */
  lemma SameRegistry(cfg: Config, a: Store, b: Store, r: Registry, issuers: set<Bytes>, name: Bytes)
    requires Refines(cfg, a, r, issuers) && Refines(cfg, b, r, issuers) && name in r
    ensures name in a.cas && name in b.cas && a.cas[name] == b.cas[name]
    ensures name in a.revoked && name in b.revoked && multiset(a.revoked[name]) == multiset(b.revoked[name])
    ensures forall i :: Only(a.revoked[name], i) == Only(b.revoked[name], i)
  {
    HoldsAll(a.revoked[name], r[name].1);
    HoldsAll(b.revoked[name], r[name].1);
    SameVersions(cfg.hash, a.cas[name].versions, b.cas[name].versions, r[name].1);
    assert |multiset(a.revoked[name])| == |a.revoked[name]| && |multiset(b.revoked[name])| == |b.revoked[name]|;
  }

  lemma SameVersions(hash: Bytes -> Digest, x: map<Digest, nat>, y: map<Digest, nat>, m: Lists)
    requires Versioned(hash, x, m) && Versioned(hash, y, m)
    ensures x == y
  {
    forall k ensures k in x <==> k in y {
      if k in x { var i :| i in m && hash(i) == k; }
      if k in y { var i :| i in m && hash(i) == k; }
    }
    forall k | k in x ensures x[k] == y[k] {
      var i :| i in m && hash(i) == k;
    }
  }

  /** Two orders, or two multiplicities, of the same deliveries on top of any history lead to the
      same authority record and to the same revoked certificates. */
  lemma DeliveriesConverge(cfg: Config, history: seq<Call>, xs: seq<Call>, ys: seq<Call>, name: Bytes,
                           issuers: set<Bytes>)
    requires Distinct(cfg.hash, issuers)
    requires forall c :: c in history || c in xs || c in ys ==> Known(c, issuers)
    requires AllDeliver(xs, name) && AllDeliver(ys, name) && Sent(xs, name) == Sent(ys, name)
    requires Consistent(Sent(xs, name))
    requires var s := Run(cfg, EMPTY, history);
             name in s.cas && Unhindered(cfg, s, xs) && Unhindered(cfg, s, ys)
    ensures var s := Run(cfg, EMPTY, history);
            var a, b := Run(cfg, s, xs), Run(cfg, s, ys);
            && name in a.cas && name in b.cas && a.cas[name] == b.cas[name]
            && name in a.revoked && name in b.revoked
            && multiset(a.revoked[name]) == multiset(b.revoked[name])
            && forall i :: Only(a.revoked[name], i) == Only(b.revoked[name], i)
  {
    hide Distinct, Known, Run, AbstractRun, Refines, NewestOf, Unhindered, Sent, Only, Consistent;
    var s, r := Run(cfg, EMPTY, history), AbstractRun(cfg, map[], history);
    EmptyRelated(cfg, issuers);
    RunRefines(cfg, EMPTY, map[], history, issuers);
    SameNames(cfg, s, r, issuers);
    DeliverNewest(cfg, s, r, xs, name, issuers);
    DeliverNewest(cfg, s, r, ys, name, issuers);
    var x, y := AbstractRun(cfg, r, xs), AbstractRun(cfg, r, ys);
    NewestUnique(r[name].1, Sent(xs, name), x[name].1, y[name].1);
    assert x == y;
    RunRefines(cfg, s, r, xs, issuers);
    RunRefines(cfg, s, r, ys, issuers);
    SameRegistry(cfg, Run(cfg, s, xs), Run(cfg, s, ys), x, issuers, name);
  }

  lemma EmptyRelated(cfg: Config, issuers: set<Bytes>)
    ensures Refines(cfg, EMPTY, map[], issuers)
  {
  }
}
