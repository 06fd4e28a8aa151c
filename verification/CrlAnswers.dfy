/**
 The answer of every call of the revocation pallet in every reachable state, with its limits as
 numbers: exactly which error, and otherwise all that it changes.
 */
module CrlAnswers {
  import opened Prelude
  import opened CrlSpec
  import opened CrlRefinement
  import opened CrlTheorems

  /** An authority is registered exactly by the manager, under a free name and with a certificate of the
      right lengths; it has no entries yet, and the others are as before. */
  lemma RegisterAnswer(cfg: Config, calls: seq<Call>, c: Call, s: Store)
    requires c.Register? && s == Run(cfg, EMPTY, calls)
    ensures var answer := Apply(cfg, s, c);
            && (answer.Ok? <==>
                  && c.manager && c.name !in s.cas && 1 <= |c.name| <= cfg.maxNameLength
                  && 1 <= |c.rootCert| <= 2048)
            && (answer.Ok? ==>
                  && GetCrl(cfg, answer.value, c.name) == Some([])
                  && c.name in answer.value.cas && answer.value.cas[c.name].rootCert == c.rootCert
                  && answer.value.cas[c.name].versions == map[] && answer.value.cas[c.name].revokedCount == 0
                  && answer.value.cas - {c.name} == s.cas && answer.value.revoked - {c.name} == s.revoked)
            && (c.manager && answer == Err(CaAlreadyRegistered) ==> c.name in s.cas)
            && (c.manager && c.name in s.cas && |c.rootCert| > 0 ==> answer == Err(CaAlreadyRegistered))
            && (answer == Err(CaNameTooLong) <==>
                  c.manager && |c.rootCert| > 0 && |c.name| > 0 && |c.name| > cfg.maxNameLength)
            && (answer == Err(RootCertTooLarge) <==>
                  c.manager && c.name !in s.cas && 1 <= |c.name| <= cfg.maxNameLength && |c.rootCert| > 2048)
            && (answer == Err(BadOrigin) <==> !c.manager)
            && (answer == Err(CaNameEmpty) <==> c.manager && |c.name| == 0)
            && (answer == Err(RootCertEmpty) <==> c.manager && |c.name| > 0 && |c.rootCert| == 0)
  {
    hide Run, CaOk;
    AlwaysBookkept(cfg, calls);
    BookkeptCa(cfg, s, c.name);
  }

  /** It is removed exactly by the manager, with all its entries; the others are as before. */
  lemma UnregisterAnswer(cfg: Config, calls: seq<Call>, c: Call, s: Store)
    requires c.Unregister? && s == Run(cfg, EMPTY, calls)
    ensures var answer := Apply(cfg, s, c);
            && (answer.Ok? <==> c.manager && c.name in s.cas)
            && (answer.Ok? ==>
                  && GetCrl(cfg, answer.value, c.name) == None && c.name !in answer.value.cas
                  && answer.value.cas == s.cas - {c.name} && answer.value.revoked == s.revoked - {c.name})
            && (answer == Err(BadOrigin) <==> !c.manager)
            && (answer == Err(CaNotFound) <==> c.manager && c.name !in s.cas && |c.name| <= cfg.maxNameLength)
            && (answer == Err(CaNameTooLong) <==> c.manager && |c.name| > cfg.maxNameLength)
  {
    hide Run, CaOk;
    AlwaysBookkept(cfg, calls);
    BookkeptCa(cfg, s, c.name);
  }

  /** The first entry that cannot be appended to `used` others decides the error. */
  ghost predicate FailsAt(es: seq<Revoked>, used: nat, k: nat, e: Error) {
    && k < |es|
    && (forall j :: 0 <= j < k ==> |es[j].issuer| <= 256 && |es[j].serial| <= 32 && used + j < 10000)
    && e == (if |es[k].issuer| > 256 then IssuerTooLarge
             else if |es[k].serial| > 32 then SerialNumberTooLarge
             else TooManyRevokedCerts)
    && (|es[k].issuer| > 256 || |es[k].serial| > 32 || used + k >= 10000)
  }

  lemma {:induction false} ObstacleFirst(es: seq<Revoked>, used: nat) returns (k: nat)
    requires Obstacle(es, used).Some?
    ensures FailsAt(es, used, k, Obstacle(es, used).value)
    decreases |es|
  {
    if |es[0].issuer| > 256 || |es[0].serial| > 32 || used >= 10000 {
      k := 0;
    } else {
      var rest := ObstacleFirst(es[1..], used + 1);
      k := rest + 1;
      forall j | 0 <= j < k ensures |es[j].issuer| <= 256 && |es[j].serial| <= 32 && used + j < 10000 {
        if j > 0 { assert es[j] == es[1..][j - 1]; }
      }
    }
  }

  /** The checks that come before the list itself. */
  ghost function Precheck(cfg: Config, s: Store, c: Call): Option<Error>
    requires c.Update?
  {
    if !c.signed then Some(BadOrigin)
    else if |c.name| > cfg.maxNameLength then Some(CaNameTooLong)
    else if c.name !in s.cas then Some(CaNotFound)
    else if |c.input.crl| > 65536 && c.input.Pem? then Some(CrlPemTooLarge)
    else if |c.input.crl| > 65536 then Some(CrlDerTooLarge)
    else if |c.input.chain| > 16384 && c.input.Pem? then Some(CertChainPemTooLarge)
    else if |c.input.chain| > 16384 then Some(CertChainDerTooLarge)
    else if c.parsed.None? then Some(CrlValidationError)
    else if |c.parsed.value.entries| == 0 then Some(EmptyCrl)
    else None
  }

  /** The entries of other issuers stay, in their order, and the new list follows them. */
  ghost predicate Replaced(before: seq<Revoked>, after: seq<Revoked>, crl: Crl)
    requires crl.entries != []
  {
    var issuer, kept := crl.entries[0].issuer, |after| - |crl.entries|;
    && kept >= 0 && after[kept..] == crl.entries
    && (forall k :: 0 <= k < kept ==> after[k].issuer != issuer)
    && forall i :: i != issuer ==> Only(after, i) == Only(before, i)
  }

  lemma MergeReplaces(store: seq<Revoked>, crl: Crl)
    requires crl.entries != []
    ensures Replaced(store, Without(store, crl.entries[0].issuer) + crl.entries, crl)
  {
    hide Without, Only;
    var issuer := crl.entries[0].issuer;
    var kept, after := Without(store, issuer), Without(store, issuer) + crl.entries;
    WithoutMembers(store, issuer);
    forall k | 0 <= k < |kept| ensures after[k].issuer != issuer {
      assert after[k] == kept[k] && kept[k] in kept;
    }
    forall i | i != issuer ensures Only(after, i) == Only(store, i) {
      OnlyAdded(kept, crl, i);
      OnlyWithout(store, issuer, i);
    }
  }

  lemma UpdateAnswer(cfg: Config, calls: seq<Call>, c: Call, s: Store)
    requires c.Update? && s == Run(cfg, EMPTY, calls)
    ensures var answer := Apply(cfg, s, c);
            if Precheck(cfg, s, c).Some? then answer == Err(Precheck(cfg, s, c).value)
            else
              && c.name in s.cas && c.name in s.revoked
              && var info, store, crl := s.cas[c.name], s.revoked[c.name], c.parsed.value;
                 var issuer := crl.entries[0].issuer;
                 var key, used := cfg.hash(issuer), |Without(store, issuer)|;
                 if key in info.versions && crl.thisUpdate <= info.versions[key] then answer == Err(NotNewerCrl)
                 else if exists k, e :: FailsAt(crl.entries, used, k, e) then
                   answer.Err? && exists k :: FailsAt(crl.entries, used, k, answer.error)
                 else if key !in info.versions && |info.versions| >= 10 then answer == Err(TooManyIssuers)
                 else
                   && answer.Ok? && c.name in answer.value.revoked
                   && var after := answer.value.revoked[c.name];
                      && Replaced(store, after, crl)
                      && answer.value.revoked == s.revoked[c.name := after]
                      && answer.value.cas
                         == s.cas[c.name := CaInfo(info.rootCert, |after|, info.versions[key := crl.thisUpdate])]
  {
    hide Run, Obstacle, Without, Only, FailsAt, Replaced, Bookkept, CaOk;
    AlwaysBookkept(cfg, calls);
    BookkeptCa(cfg, s, c.name);
    if Precheck(cfg, s, c).None? {
      var crl := c.parsed.value;
      var used := |Without(s.revoked[c.name], crl.entries[0].issuer)|;
      MergeReplaces(s.revoked[c.name], crl);
      if Obstacle(crl.entries, used).Some? {
        var k := ObstacleFirst(crl.entries, used);
        assert FailsAt(crl.entries, used, k, Obstacle(crl.entries, used).value);
      } else {
        NeverFails(crl.entries, used);
      }
    }
  }

  lemma NeverFails(es: seq<Revoked>, used: nat)
    requires Obstacle(es, used).None?
    ensures forall k, e :: !FailsAt(es, used, k, e)
  {
    forall k, e ensures !FailsAt(es, used, k, e) {
      if FailsAt(es, used, k, e) { FailingIsObstacle(es, used, k, e); }
    }
  }

  lemma {:induction false} FailingIsObstacle(es: seq<Revoked>, used: nat, k: nat, e: Error)
    requires FailsAt(es, used, k, e)
    ensures Obstacle(es, used) == Some(e)
    decreases |es|
  {
    if k > 0 {
      assert forall j :: 0 <= j < k - 1 ==> es[1..][j] == es[j + 1];
      FailingIsObstacle(es[1..], used + 1, k - 1, e);
    }
  }
}
