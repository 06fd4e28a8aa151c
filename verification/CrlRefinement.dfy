/** The flat vector and the version map refine "newest list per issuer", step by step and error by error. */
module CrlRefinement {
  import opened Prelude
  import opened CrlSpec

  /* ---------- the flat vector ---------- */

  lemma {:induction false} OnlyConcat(a: seq<Revoked>, b: seq<Revoked>, issuer: Bytes)
    ensures Only(a + b, issuer) == Only(a, issuer) + Only(b, issuer)
  {
    if a == [] {
      assert a + b == b;
    } else {
      assert (a + b)[0] == a[0] && (a + b)[1..] == a[1..] + b;
      OnlyConcat(a[1..], b, issuer);
      Associates(if a[0].issuer == issuer then [a[0]] else [], Only(a[1..], issuer), Only(b, issuer));
    }
  }

  lemma Associates(x: seq<Revoked>, y: seq<Revoked>, z: seq<Revoked>)
    ensures x + (y + z) == (x + y) + z
  {
  }

  lemma {:induction false} OnlyWithout(store: seq<Revoked>, issuer: Bytes, other: Bytes)
    ensures Only(Without(store, issuer), other) == if other == issuer then [] else Only(store, other)
  {
    if store != [] {
      OnlyWithout(store[1..], issuer, other);
      OnlyConcat(if store[0].issuer != issuer then [store[0]] else [], Without(store[1..], issuer), other);
    }
  }

  lemma {:induction false} OnlyOwn(es: seq<Revoked>, issuer: Bytes, other: Bytes)
    requires forall i :: 0 <= i < |es| ==> es[i].issuer == issuer
    ensures Only(es, other) == if other == issuer then es else []
  {
    if es != [] { OnlyOwn(es[1..], issuer, other); }
  }

  lemma {:induction false} SplitCounts(store: seq<Revoked>, issuer: Bytes)
    ensures multiset(store) == multiset(Only(store, issuer)) + multiset(Without(store, issuer))
  {
    if store != [] {
      SplitCounts(store[1..], issuer);
      assert store == [store[0]] + store[1..];
    }
  }

  /** The vector holds, issuer by issuer and in order, the entries of the newest lists. */
  ghost predicate Holds(store: seq<Revoked>, m: Lists) {
    && (forall i :: i in m ==> m[i].entries != [] && m[i].entries[0].issuer == i)
    && (forall i :: Only(store, i) == if i in m then m[i].entries else [])
  }

  lemma EntriesIssuer(crl: Crl)
    requires crl.entries != []
    ensures forall i :: 0 <= i < |crl.entries| ==> crl.entries[i].issuer == crl.entries[0].issuer
  {
  }

  lemma {:induction false} DropIssuer(store: seq<Revoked>, m: Lists, issuer: Bytes)
    requires Holds(store, m)
    ensures Holds(Without(store, issuer), m - {issuer})
  {
    hide Only, Without;
    forall i ensures Only(Without(store, issuer), i) == if i in m - {issuer} then (m - {issuer})[i].entries else [] {
      OnlyWithout(store, issuer, i);
    }
  }

  lemma OnlyAdded(store: seq<Revoked>, crl: Crl, i: Bytes)
    requires crl.entries != []
    ensures Only(store + crl.entries, i) == Only(store, i) + if i == crl.entries[0].issuer then crl.entries else []
  {
    EntriesIssuer(crl);
    OnlyConcat(store, crl.entries, i);
    OnlyOwn(crl.entries, crl.entries[0].issuer, i);
  }

  lemma AddIssuer(store: seq<Revoked>, m: Lists, crl: Crl)
    requires Holds(store, m) && crl.entries != [] && crl.entries[0].issuer !in m
    ensures Holds(store + crl.entries, m[crl.entries[0].issuer := crl])
  {
    hide Only;
    var issuer := crl.entries[0].issuer;
    forall i ensures Only(store + crl.entries, i) == if i in m[issuer := crl] then m[issuer := crl][i].entries else [] {
      OnlyAdded(store, crl, i);
    }
  }

  /** As a multiset the vector is the union of every issuer's newest list. */
  lemma {:induction false} HoldsAll(store: seq<Revoked>, m: Lists)
    requires Holds(store, m)
    ensures multiset(store) == AllEntries(m)
    decreases |m|
  {
    if m == map[] {
      if store != [] { assert Only(store, store[0].issuer) != []; }
    } else {
      var i :| i in m && AllEntries(m) == multiset(m[i].entries) + AllEntries(m - {i});
      assert (m - {i}).Keys == m.Keys - {i};
      DropIssuer(store, m, i);
      HoldsAll(Without(store, i), m - {i});
      SplitCounts(store, i);
    }
  }

  /* ---------- the version map ---------- */

  /** No issuer that can be stored shares its hash with another of these. */
  ghost predicate Distinct(hash: Bytes -> Digest, issuers: set<Bytes>) {
    forall a, b :: a in issuers && b in issuers && |a| <= MAX_CERT_ISSUER_LENGTH && hash(a) == hash(b) ==> a == b
  }

  ghost predicate Named(m: Lists, issuers: set<Bytes>) {
    forall i :: i in m ==> i in issuers && |i| <= MAX_CERT_ISSUER_LENGTH
  }

  /** The version map has one entry per issuer, with the version of its newest list. */
  ghost predicate Versioned(hash: Bytes -> Digest, versions: map<Digest, nat>, m: Lists) {
    && (forall i :: i in m ==> hash(i) in versions && versions[hash(i)] == m[i].thisUpdate)
    && (forall k :: k in versions ==> exists i :: i in m && hash(i) == k)
  }

  lemma VersionsWithout(hash: Bytes -> Digest, versions: map<Digest, nat>, m: Lists, issuers: set<Bytes>, i: Bytes)
    requires Versioned(hash, versions, m) && Named(m, issuers) && Distinct(hash, issuers) && i in m
    ensures hash(i) in versions && Named(m - {i}, issuers)
    ensures Versioned(hash, versions - {hash(i)}, m - {i})
  {
    var versions', m' := versions - {hash(i)}, m - {i};
    forall j | j in m' ensures hash(j) in versions' && versions'[hash(j)] == m'[j].thisUpdate {
      assert j in m;
    }
    forall k | k in versions' ensures exists j :: j in m' && hash(j) == k {
      var j :| j in m && hash(j) == k;
      assert j in m';
    }
  }

  lemma RemovedKey<K, V>(m: map<K, V>, k: K)
    requires k in m
    ensures |m - {k}| == |m| - 1
  {
    assert (m - {k}).Keys == m.Keys - {k};
  }

  lemma NoVersions(hash: Bytes -> Digest, versions: map<Digest, nat>, m: Lists)
    requires Versioned(hash, versions, m) && |m| == 0
    ensures |versions| == 0
  {
    assert versions.Keys == {};
  }

  lemma {:induction false} VersionCount(hash: Bytes -> Digest, versions: map<Digest, nat>, m: Lists,
                                        issuers: set<Bytes>)
    requires Versioned(hash, versions, m) && Named(m, issuers) && Distinct(hash, issuers)
    ensures |versions| == |m|
    decreases |m|
  {
    hide Versioned, Distinct, Named;
    if |m| == 0 {
      NoVersions(hash, versions, m);
    } else {
      var i :| i in m;
      VersionsWithout(hash, versions, m, issuers, i);
      RemovedKey(m, i);
      RemovedKey(versions, hash(i));
      VersionCount(hash, versions - {hash(i)}, m - {i}, issuers);
    }
  }

  /* ---------- one authority, one step ---------- */

  ghost predicate CaRefines(cfg: Config, info: CaInfo, store: seq<Revoked>, root: Bytes, m: Lists) {
    && info.rootCert == root && info.revokedCount == |store|
    && Holds(store, m) && Versioned(cfg.hash, info.versions, m)
  }

  ghost predicate Refines(cfg: Config, s: Store, r: Registry, issuers: set<Bytes>) {
    && s.cas.Keys == s.revoked.Keys == r.Keys
    && forall n :: n in r ==>
         && |n| <= cfg.maxNameLength && Named(r[n].1, issuers)
         && CaRefines(cfg, s.cas[n], s.revoked[n], r[n].0, r[n].1)
  }

  /** The issuer a call brings in, if any, is one of `issuers`. */
  ghost predicate Known(c: Call, issuers: set<Bytes>) {
    c.Update? && c.parsed.Some? && c.parsed.value.entries != [] ==> c.parsed.value.entries[0].issuer in issuers
  }

  lemma MergeHolds(store: seq<Revoked>, m: Lists, crl: Crl)
    requires Holds(store, m) && crl.entries != []
    ensures var issuer := crl.entries[0].issuer;
            && |Without(store, issuer)| == |AllEntries(m - {issuer})|
            && Holds(Without(store, issuer) + crl.entries, m[issuer := crl])
  {
    hide Without, Only, AllEntries, Holds;
    var issuer := crl.entries[0].issuer;
    DropIssuer(store, m, issuer);
    HoldsAll(Without(store, issuer), m - {issuer});
    assert |multiset(Without(store, issuer))| == |Without(store, issuer)|;
    AddIssuer(Without(store, issuer), m - {issuer}, crl);
    assert (m - {issuer})[issuer := crl] == m[issuer := crl];
  }

  lemma NewVersion(hash: Bytes -> Digest, versions: map<Digest, nat>, m: Lists, issuer: Bytes, crl: Crl,
                   issuers: set<Bytes>)
    requires Versioned(hash, versions, m) && Named(m, issuers) && issuer in issuers && Distinct(hash, issuers)
    ensures hash(issuer) in versions <==> issuer in m
    ensures issuer in m ==> versions[hash(issuer)] == m[issuer].thisUpdate
    ensures Versioned(hash, versions[hash(issuer) := crl.thisUpdate], m[issuer := crl])
  {
    var versions', m' := versions[hash(issuer) := crl.thisUpdate], m[issuer := crl];
    forall k | k in versions' ensures exists i :: i in m' && hash(i) == k {
      if k == hash(issuer) {
        assert issuer in m';
      } else {
        var i :| i in m && hash(i) == k;
        assert i in m';
      }
    }
  }

  lemma UpdateRefines(cfg: Config, s: Store, r: Registry, c: Call, issuers: set<Bytes>)
    requires Refines(cfg, s, r, issuers) && Known(c, issuers) && Distinct(cfg.hash, issuers)
    requires c.Update? && c.name in r && c.parsed.Some? && c.parsed.value.entries != []
    ensures var info, lists, crl := s.cas[c.name], r[c.name].1, c.parsed.value;
            var issuer := crl.entries[0].issuer;
            var key := cfg.hash(issuer);
            && (key in info.versions && crl.thisUpdate <= info.versions[key] <==>
                  issuer in lists && crl.thisUpdate <= lists[issuer].thisUpdate)
            && |Without(s.revoked[c.name], issuer)| == |AllEntries(lists - {issuer})|
            && (key !in info.versions && |info.versions| >= MAX_ISSUERS_PER_CA <==>
                  issuer !in lists && |lists| >= MAX_ISSUERS_PER_CA)
            && var merged := Without(s.revoked[c.name], issuer) + crl.entries;
            CaRefines(cfg, info.(versions := info.versions[key := crl.thisUpdate], revokedCount := |merged|), merged,
                      r[c.name].0, lists[issuer := crl])
  {
    hide Without, Only, AllEntries, Distinct, Holds, Versioned;
    var n := c.name;
    assert CaRefines(cfg, s.cas[n], s.revoked[n], r[n].0, r[n].1);
    MergeHolds(s.revoked[n], r[n].1, c.parsed.value);
    VersionCount(cfg.hash, s.cas[n].versions, r[n].1, issuers);
    NewVersion(cfg.hash, s.cas[n].versions, r[n].1, c.parsed.value.entries[0].issuer, c.parsed.value, issuers);
  }

  lemma PutRefines(cfg: Config, s: Store, r: Registry, issuers: set<Bytes>, n: Bytes, info: CaInfo, store: seq<Revoked>,
                   root: Bytes, m: Lists)
    requires Refines(cfg, s, r, issuers) && |n| <= cfg.maxNameLength && Named(m, issuers)
    requires CaRefines(cfg, info, store, root, m)
    ensures Refines(cfg, Store(s.cas[n := info], s.revoked[n := store]), r[n := (root, m)], issuers)
  {
    hide CaRefines;
  }

  lemma DropRefines(cfg: Config, s: Store, r: Registry, issuers: set<Bytes>, n: Bytes)
    requires Refines(cfg, s, r, issuers)
    ensures Refines(cfg, Store(s.cas - {n}, s.revoked - {n}), r - {n}, issuers)
  {
    hide CaRefines;
  }

  lemma SameNames(cfg: Config, s: Store, r: Registry, issuers: set<Bytes>)
    requires Refines(cfg, s, r, issuers)
    ensures s.cas.Keys == s.revoked.Keys == r.Keys
    ensures forall n :: n in r ==> Named(r[n].1, issuers) && s.cas[n].rootCert == r[n].0
  {
  }

  lemma UpdateStep(cfg: Config, s: Store, r: Registry, c: Call, issuers: set<Bytes>)
    requires Refines(cfg, s, r, issuers) && Known(c, issuers) && Distinct(cfg.hash, issuers)
    requires c.Update? && |c.name| <= cfg.maxNameLength && c.name in r && c.parsed.Some? && c.parsed.value.entries != []
    requires Apply(cfg, s, c).Ok?
    ensures Refines(cfg, Next(cfg, s, c), AbstractNext(cfg, r, c), issuers)
  {
    hide Without, Only, AllEntries, Obstacle, Distinct, CaRefines, InputError, Refines;
    var name := c.name;
    SameNames(cfg, s, r, issuers);
    UpdateRefines(cfg, s, r, c, issuers);
    var info, crl := s.cas[name], c.parsed.value;
    var issuer := crl.entries[0].issuer;
    var merged := Without(s.revoked[name], issuer) + crl.entries;
    StorableIssuer(crl.entries, |Without(s.revoked[name], issuer)|);
    PutRefines(cfg, s, r, issuers, name,
               info.(versions := info.versions[cfg.hash(issuer) := crl.thisUpdate], revokedCount := |merged|),
               merged, r[name].0, r[name].1[issuer := crl]);
  }

  /** Every call gives the same answer on both machines, the same error included, and they stay
      related. */
  lemma StepRefines(cfg: Config, s: Store, r: Registry, c: Call, issuers: set<Bytes>)
    requires Refines(cfg, s, r, issuers) && Known(c, issuers) && Distinct(cfg.hash, issuers)
    ensures Apply(cfg, s, c).Ok? <==> AbstractApply(cfg, r, c).Ok?
    ensures Apply(cfg, s, c).Err? ==> Apply(cfg, s, c).error == AbstractApply(cfg, r, c).error
    ensures Refines(cfg, Next(cfg, s, c), AbstractNext(cfg, r, c), issuers)
  {
    hide Without, Only, AllEntries, Obstacle, Distinct, CaRefines, InputError, Refines;
    SameNames(cfg, s, r, issuers);
    match c {
      case Register(_, name, rootCert) =>
        EmptyRefines(cfg, rootCert);
        if |name| <= cfg.maxNameLength {
          PutRefines(cfg, s, r, issuers, name, CaInfo(rootCert, 0, map[]), [], rootCert, map[]);
        }
      case Unregister(_, name) =>
        DropRefines(cfg, s, r, issuers, name);
      case Update(_, name, _, parsed) =>
        if |name| <= cfg.maxNameLength && name in r && parsed.Some? && parsed.value.entries != [] {
          UpdateRefines(cfg, s, r, c, issuers);
          if Apply(cfg, s, c).Ok? { UpdateStep(cfg, s, r, c, issuers); }
        }
    }
  }

  lemma StorableIssuer(es: seq<Revoked>, used: nat)
    requires es != []
    ensures |es[0].issuer| > MAX_CERT_ISSUER_LENGTH ==> Obstacle(es, used).Some?
  {
  }

  lemma EmptyRefines(cfg: Config, root: Bytes)
    ensures CaRefines(cfg, CaInfo(root, 0, map[]), [], root, map[])
  {
  }

  lemma {:induction false} RunRefines(cfg: Config, s: Store, r: Registry, calls: seq<Call>, issuers: set<Bytes>)
    requires Refines(cfg, s, r, issuers) && Distinct(cfg.hash, issuers)
    requires forall i :: 0 <= i < |calls| ==> Known(calls[i], issuers)
    ensures Refines(cfg, Run(cfg, s, calls), AbstractRun(cfg, r, calls), issuers)
    decreases |calls|
  {
    hide Refines, Known, Next, AbstractNext;
    if calls != [] {
      StepRefines(cfg, s, r, calls[0], issuers);
      RunRefines(cfg, Next(cfg, s, calls[0]), AbstractNext(cfg, r, calls[0]), calls[1..], issuers);
    }
  }

  /** What the two storage maps say about one authority, in terms of its issuers' newest lists. */
  ghost predicate Mirrors(cfg: Config, s: Store, r: Registry, name: Bytes, issuers: set<Bytes>) {
    && (name in s.cas <==> name in r)
    && (name in s.revoked <==> name in r)
    && (name !in r ==> GetCrl(cfg, s, name) == None)
    && (name in r ==>
          var store, info, lists := s.revoked[name], s.cas[name], r[name].1;
          && GetCrl(cfg, s, name) == Some(store)
          && info.rootCert == r[name].0
          && info.revokedCount == |store|
          && multiset(store) == AllEntries(lists)
          && (forall i :: Only(store, i) == if i in lists then lists[i].entries else [])
          && |info.versions| == |lists|
          && (forall i :: i in issuers ==> (cfg.hash(i) in info.versions <==> Only(store, i) != []))
          && (forall i :: i in lists ==>
                cfg.hash(i) in info.versions && info.versions[cfg.hash(i)] == lists[i].thisUpdate))
  }

  lemma RefinesMirrors(cfg: Config, s: Store, r: Registry, name: Bytes, issuers: set<Bytes>)
    requires Refines(cfg, s, r, issuers) && Distinct(cfg.hash, issuers)
    ensures Mirrors(cfg, s, r, name, issuers)
  {
    if name in r {
      var store, versions, lists := s.revoked[name], s.cas[name].versions, r[name].1;
      HoldsAll(store, lists);
      VersionCount(cfg.hash, versions, lists, issuers);
      forall i | i in issuers ensures cfg.hash(i) in versions <==> Only(store, i) != [] {
        if cfg.hash(i) in versions {
          var j :| j in lists && cfg.hash(j) == cfg.hash(i);
          assert j in issuers;
        }
      }
    }
  }

  /** Over every run in which no two issuer names collide under the hash, the pallet's storage is
      that of the simple machine fed the same calls. */
  lemma StorageRefines(cfg: Config, calls: seq<Call>, issuers: set<Bytes>, name: Bytes)
    requires Distinct(cfg.hash, issuers) && forall i :: 0 <= i < |calls| ==> Known(calls[i], issuers)
    ensures Mirrors(cfg, Run(cfg, EMPTY, calls), AbstractRun(cfg, map[], calls), name, issuers)
  {
    hide Run, AbstractRun, Known, Mirrors, Distinct;
    RunRefines(cfg, EMPTY, map[], calls, issuers);
    RefinesMirrors(cfg, Run(cfg, EMPTY, calls), AbstractRun(cfg, map[], calls), name, issuers);
  }

  /** And every next call is answered as by the simple machine: accepted by both, or refused by both
      with the same error. */
  lemma AnswersRefine(cfg: Config, calls: seq<Call>, c: Call, issuers: set<Bytes>)
    requires Distinct(cfg.hash, issuers) && Known(c, issuers)
    requires forall i :: 0 <= i < |calls| ==> Known(calls[i], issuers)
    ensures var answer := Apply(cfg, Run(cfg, EMPTY, calls), c);
            var simple := AbstractApply(cfg, AbstractRun(cfg, map[], calls), c);
            && (answer.Ok? <==> simple.Ok?)
            && (answer.Err? ==> answer.error == simple.error)
  {
    hide Run, AbstractRun, Known, Distinct, Apply, AbstractApply;
    RunRefines(cfg, EMPTY, map[], calls, issuers);
    StepRefines(cfg, Run(cfg, EMPTY, calls), AbstractRun(cfg, map[], calls), c, issuers);
  }
}
