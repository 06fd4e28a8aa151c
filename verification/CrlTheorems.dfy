/** What the revocation pallet keeps over every run: its books, for any hash function, and no old list comes back. */
module CrlTheorems {
  import opened Prelude
  import opened CrlSpec

  /* ---------- bookkeeping ---------- */

  predicate Fits(e: Revoked) {
    |e.issuer| <= MAX_CERT_ISSUER_LENGTH && |e.serial| <= MAX_CERT_SERIAL_LENGTH
  }

  predicate AllFit(es: seq<Revoked>) {
    forall i :: 0 <= i < |es| ==> Fits(es[i])
  }

  /** Appending succeeds exactly when every entry fits and all of them have room. */
  lemma {:induction false} ObstacleExactly(es: seq<Revoked>, used: nat)
    requires used <= MAX_REVOKED_CERTS_PER_CA
    ensures Obstacle(es, used) == None <==> AllFit(es) && used + |es| <= MAX_REVOKED_CERTS_PER_CA
    ensures AllFit(es) && used + |es| > MAX_REVOKED_CERTS_PER_CA ==> Obstacle(es, used) == Some(TooManyRevokedCerts)
    decreases |es|
  {
    if es != [] {
      assert AllFit(es) <==> Fits(es[0]) && AllFit(es[1..]) by {
        if Fits(es[0]) && AllFit(es[1..]) {
          assert forall i :: 0 < i < |es| ==> es[i] == es[1..][i - 1];
        }
      }
      if used < MAX_REVOKED_CERTS_PER_CA { ObstacleExactly(es[1..], used + 1); }
    }
  }

  lemma {:induction false} NeverStale(es: seq<Revoked>, used: nat)
    ensures Obstacle(es, used) != Some(NotNewerCrl)
    decreases |es|
  {
    if es != [] { NeverStale(es[1..], used + 1); }
  }

  lemma {:induction false} WithoutMembers(store: seq<Revoked>, issuer: Bytes)
    ensures forall e :: e in Without(store, issuer) <==> e in store && e.issuer != issuer
    ensures |Without(store, issuer)| <= |store|
  {
    if store != [] {
      WithoutMembers(store[1..], issuer);
      assert forall e :: e in store <==> e == store[0] || e in store[1..];
    }
  }

  /** The version map has a key exactly for the hashes of issuers with stored entries. */
  ghost predicate KeysMatch(hash: Bytes -> Digest, versions: map<Digest, nat>, store: seq<Revoked>) {
    forall k :: k in versions <==> exists e :: e in store && hash(e.issuer) == k
  }

  ghost predicate CaOk(cfg: Config, info: CaInfo, store: seq<Revoked>) {
    && 0 < |info.rootCert| <= MAX_ROOT_CERT_LENGTH
    && info.revokedCount == |store| <= MAX_REVOKED_CERTS_PER_CA
    && |info.versions| <= MAX_ISSUERS_PER_CA
    && AllFit(store)
    && KeysMatch(cfg.hash, info.versions, store)
  }

  ghost predicate Bookkept(cfg: Config, s: Store) {
    && s.cas.Keys == s.revoked.Keys
    && forall n :: n in s.cas ==> 0 < |n| <= cfg.maxNameLength && CaOk(cfg, s.cas[n], s.revoked[n])
  }

  lemma MergeKeys(hash: Bytes -> Digest, versions: map<Digest, nat>, store: seq<Revoked>, crl: Crl)
    requires KeysMatch(hash, versions, store) && crl.entries != []
    ensures var issuer := crl.entries[0].issuer;
            KeysMatch(hash, versions[hash(issuer) := crl.thisUpdate], Without(store, issuer) + crl.entries)
  {
    hide Without;
    var issuer := crl.entries[0].issuer;
    var versions', store' := versions[hash(issuer) := crl.thisUpdate], Without(store, issuer) + crl.entries;
    WithoutMembers(store, issuer);
    forall k ensures k in versions' <==> exists e :: e in store' && hash(e.issuer) == k {
      if k == hash(issuer) {
        assert crl.entries[0] in store';
      } else if k in versions {
        var e :| e in store && hash(e.issuer) == k;
        assert e in store';
      } else {
        forall e | e in store' ensures hash(e.issuer) != k {
          if e in crl.entries { assert e.issuer == issuer; } else { assert e in store; }
        }
      }
    }
  }

  lemma MergeOk(cfg: Config, info: CaInfo, store: seq<Revoked>, crl: Crl)
    requires CaOk(cfg, info, store) && crl.entries != []
    requires var issuer := crl.entries[0].issuer;
             && Obstacle(crl.entries, |Without(store, issuer)|) == None
             && (cfg.hash(issuer) in info.versions || |info.versions| < MAX_ISSUERS_PER_CA)
    ensures var issuer := crl.entries[0].issuer;
            var store' := Without(store, issuer) + crl.entries;
            CaOk(cfg, info.(versions := info.versions[cfg.hash(issuer) := crl.thisUpdate], revokedCount := |store'|),
                 store')
  {
    hide Without, Obstacle, KeysMatch;
    var issuer := crl.entries[0].issuer;
    WithoutMembers(store, issuer);
    forall i | 0 <= i < |Without(store, issuer)| ensures Fits(Without(store, issuer)[i]) {
      assert Without(store, issuer)[i] in store;
    }
    ObstacleExactly(crl.entries, |Without(store, issuer)|);
    MergeKeys(cfg.hash, info.versions, store, crl);
    var versions' := info.versions[cfg.hash(issuer) := crl.thisUpdate];
    assert versions'.Keys == info.versions.Keys + {cfg.hash(issuer)};
    assert |versions'| == |info.versions| + if cfg.hash(issuer) in info.versions then 0 else 1;
  }

  lemma EmptyOk(cfg: Config, root: Bytes)
    requires 0 < |root| <= MAX_ROOT_CERT_LENGTH
    ensures CaOk(cfg, CaInfo(root, 0, map[]), [])
  {
  }

  lemma PutBookkeeps(cfg: Config, s: Store, n: Bytes, info: CaInfo, store: seq<Revoked>)
    requires Bookkept(cfg, s) && 0 < |n| <= cfg.maxNameLength && CaOk(cfg, info, store)
    ensures Bookkept(cfg, Store(s.cas[n := info], s.revoked[n := store]))
  {
    hide CaOk;
  }

  lemma DropBookkeeps(cfg: Config, s: Store, n: Bytes)
    requires Bookkept(cfg, s)
    ensures Bookkept(cfg, Store(s.cas - {n}, s.revoked - {n}))
  {
    hide CaOk;
  }

  lemma BookkeptCa(cfg: Config, s: Store, n: Bytes)
    requires Bookkept(cfg, s)
    ensures n in s.cas <==> n in s.revoked
    ensures n in s.cas ==> 0 < |n| <= cfg.maxNameLength && CaOk(cfg, s.cas[n], s.revoked[n])
  {
    hide CaOk;
  }

  lemma CallBookkeeps(cfg: Config, s: Store, c: Call)
    requires Bookkept(cfg, s)
    ensures Bookkept(cfg, Next(cfg, s, c))
  {
    hide Without, Obstacle, CaOk, InputError, Bookkept;
    if Apply(cfg, s, c).Ok? {
      BookkeptCa(cfg, s, c.name);
      match c {
        case Register(_, name, rootCert) =>
          EmptyOk(cfg, rootCert);
          PutBookkeeps(cfg, s, name, CaInfo(rootCert, 0, map[]), []);
        case Unregister(_, name) =>
          DropBookkeeps(cfg, s, name);
        case Update(_, name, _, parsed) =>
          MergeOk(cfg, s.cas[name], s.revoked[name], parsed.value);
          PutBookkeeps(cfg, s, name, Next(cfg, s, c).cas[name], Next(cfg, s, c).revoked[name]);
      }
    }
  }

  /** Over every run, whatever the hash function: the two storage maps have the same authorities;
      the recorded count is the number of stored entries; all limits hold; and a version is
      recorded exactly for the issuers, by hash, that have stored entries. */
  lemma {:induction false} RunBookkeeps(cfg: Config, s: Store, calls: seq<Call>)
    requires Bookkept(cfg, s)
    ensures Bookkept(cfg, Run(cfg, s, calls))
    decreases |calls|
  {
    hide Bookkept, Next;
    if calls != [] {
      CallBookkeeps(cfg, s, calls[0]);
      RunBookkeeps(cfg, Next(cfg, s, calls[0]), calls[1..]);
    }
  }

  lemma AlwaysBookkept(cfg: Config, calls: seq<Call>)
    ensures Bookkept(cfg, Run(cfg, EMPTY, calls))
  {
    RunBookkeeps(cfg, EMPTY, calls);
  }

  /* ---------- versions only grow ---------- */

  ghost predicate VersionsGrow(was: map<Digest, nat>, now: map<Digest, nat>) {
    forall k :: k in was ==> k in now && was[k] <= now[k]
  }

  /** No call of this run unregisters the authority. */
  ghost predicate Stays(calls: seq<Call>, name: Bytes) {
    forall i :: 0 <= i < |calls| ==> calls[i].Unregister? ==> calls[i].name != name || !calls[i].manager
  }

  lemma {:induction false} RunGrows(cfg: Config, s: Store, calls: seq<Call>, name: Bytes)
    requires name in s.cas && Stays(calls, name)
    ensures name in Run(cfg, s, calls).cas
    ensures VersionsGrow(s.cas[name].versions, Run(cfg, s, calls).cas[name].versions)
    decreases |calls|
  {
    hide Merge, InputError;
    if calls != [] {
      var next := Next(cfg, s, calls[0]);
      assert name in next.cas && VersionsGrow(s.cas[name].versions, next.cas[name].versions);
      RunGrows(cfg, next, calls[1..], name);
    }
  }

  /** An accepted list is never followed by one of its issuer that is not newer, however many calls
      come between, until the authority is unregistered: the late one is refused as not newer if
      it passes the earlier checks. */
  lemma NoReplay(cfg: Config, s: Store, accepted: Call, calls: seq<Call>, late: Call)
    requires accepted.Update? && Apply(cfg, s, accepted).Ok?
    requires Stays(calls, accepted.name)
    requires late.Update? && late.name == accepted.name && late.parsed.Some? && late.parsed.value.entries != []
    requires accepted.parsed.value.entries[0].issuer == late.parsed.value.entries[0].issuer
    requires late.parsed.value.thisUpdate <= accepted.parsed.value.thisUpdate
    ensures var t := Run(cfg, Apply(cfg, s, accepted).value, calls);
            && Apply(cfg, t, late).Err?
            && (late.signed && InputError(late.input).None? ==> Apply(cfg, t, late) == Err(NotNewerCrl))
  {
    hide Merge, InputError, Run;
    RunGrows(cfg, Apply(cfg, s, accepted).value, calls, accepted.name);
  }

  /* ---------- the hash ---------- */

  const NAME: Bytes := [1]

  /** A list with one entry. */
  function OneEntry(issuer: Bytes): Crl {
    Crl(1, [Revoked(issuer, [1])])
  }

  /** A delivery whose input the parser reads as that list. */
  function Sole(issuer: Bytes, input: CrlInput): Call {
    Update(true, NAME, input, Some(OneEntry(issuer)))
  }

  const START: Call := Register(true, NAME, [0])

  lemma Started(cfg: Config)
    requires cfg.maxNameLength >= 1
    ensures Next(cfg, EMPTY, START) == Store(map[NAME := CaInfo([0], 0, map[])], map[NAME := []])
    ensures AbstractNext(cfg, map[], START) == map[NAME := ([0], map[])]
  {
  }

  lemma TwoCalls(cfg: Config, s: Store, r: Registry, x: Call, y: Call)
    ensures Run(cfg, s, [x, y]) == Next(cfg, Next(cfg, s, x), y)
    ensures AbstractRun(cfg, r, [x, y]) == AbstractNext(cfg, AbstractNext(cfg, r, x), y)
  {
    hide Next, AbstractNext;
    assert [x, y][1..] == [y] && [y][1..] == [];
    var s1, r1 := Next(cfg, s, x), AbstractNext(cfg, r, x);
    assert Run(cfg, s1, [y]) == Run(cfg, Next(cfg, s1, y), []);
    assert AbstractRun(cfg, r1, [y]) == AbstractRun(cfg, AbstractNext(cfg, r1, y), []);
  }

  /** The first list of an authority is accepted if its entries fit. */
  lemma FirstList(cfg: Config, s: Store, r: Registry, c: Call)
    requires cfg.maxNameLength >= 1
    requires s == Store(map[NAME := CaInfo([0], 0, map[])], map[NAME := []]) && r == map[NAME := ([0], map[])]
    requires c.Update? && c.name == NAME && c.signed && InputError(c.input).None? && c.parsed.Some?
    requires c.parsed.value.entries != [] && AllFit(c.parsed.value.entries)
    requires |c.parsed.value.entries| <= MAX_REVOKED_CERTS_PER_CA
    ensures var crl := c.parsed.value;
            var issuer := crl.entries[0].issuer;
            var info := CaInfo([0], |crl.entries|, map[cfg.hash(issuer) := crl.thisUpdate]);
            && Next(cfg, s, c) == Store(map[NAME := info], map[NAME := crl.entries])
            && AbstractNext(cfg, r, c) == map[NAME := ([0], map[issuer := crl])]
  {
    var crl := c.parsed.value;
    ObstacleExactly(crl.entries, 0);
    assert [] + crl.entries == crl.entries;
    var none: Lists := map[];
    assert none - {crl.entries[0].issuer} == none;
  }

  /** Without the condition on hashes the refinement fails: two issuers with one hash share a
      version, so the second one's first list is refused as not newer. */
  lemma CollisionDiverges(cfg: Config, a: Bytes, b: Bytes, input: CrlInput, other: CrlInput)
    requires cfg.maxNameLength >= 1 && a != b && |a| <= MAX_CERT_ISSUER_LENGTH && cfg.hash(a) == cfg.hash(b)
    requires InputError(input).None? && InputError(other).None?
    ensures var calls := [START, Sole(a, input)];
            && Apply(cfg, Run(cfg, EMPTY, calls), Sole(b, other)) == Err(NotNewerCrl)
            && AbstractApply(cfg, AbstractRun(cfg, map[], calls), Sole(b, other)) != Err(NotNewerCrl)
  {
    hide Obstacle, AllEntries, Run, AbstractRun, Next, AbstractNext, Without, InputError;
    TwoCalls(cfg, EMPTY, map[], START, Sole(a, input));
    Started(cfg);
    var s, r := Next(cfg, EMPTY, START), AbstractNext(cfg, map[], START);
    FirstList(cfg, s, r, Sole(a, input));
    var m := AbstractNext(cfg, r, Sole(a, input))[NAME].1;
    NeverStale(OneEntry(b).entries, |AllEntries(m - {b})|);
  }
}
