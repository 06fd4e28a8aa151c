/**
 The certificate revocation pallet with its storage in fields. Every call is proved to leave
 the storage, and to return the error, that `CrlSpec` states. The runtime executes a call in a
 storage transaction, so a call that fails after it has written restores what it changed.
 */
module CrlPallet {
  import opened Prelude
  import Spec = CrlSpec
  import opened CrlTheorems

  class Pallet {
    const cfg: Spec.Config
    var cas: map<Bytes, Spec.CaInfo>
    var revoked: map<Bytes, seq<Spec.Revoked>>

    ghost function View(): Spec.Store
      reads this
    {
      Spec.Store(cas, revoked)
    }

    ghost predicate Valid()
      reads this
    {
      Bookkept(cfg, View())
    }

    constructor (config: Spec.Config)
      ensures Valid() && cfg == config && View() == Spec.EMPTY
    {
      cfg, cas, revoked := config, map[], map[];
    }

    method RegisterCa(manager: bool, name: Bytes, rootCert: Bytes) returns (failed: Option<Spec.Error>)
      requires Valid()
      modifies this
      ensures Valid()
      ensures match Spec.RegisterCa(cfg, old(View()), manager, name, rootCert)
              case Ok(after) => failed == None && View() == after
              case Err(e) => failed == Some(e) && View() == old(View())
    {
      hide Bookkept;
      CallBookkeeps(cfg, View(), Spec.Register(manager, name, rootCert));
      if !manager { return Some(Spec.BadOrigin); }
      if name == [] { return Some(Spec.CaNameEmpty); }
      if rootCert == [] { return Some(Spec.RootCertEmpty); }
      if |name| > cfg.maxNameLength { return Some(Spec.CaNameTooLong); }
      if name in cas { return Some(Spec.CaAlreadyRegistered); }
      if |rootCert| > Spec.MAX_ROOT_CERT_LENGTH { return Some(Spec.RootCertTooLarge); }
      cas := cas[name := Spec.CaInfo(rootCert, 0, map[])];
      revoked := revoked[name := []];
      failed := None;
    }

    method UnregisterCa(manager: bool, name: Bytes) returns (failed: Option<Spec.Error>)
      requires Valid()
      modifies this
      ensures Valid()
      ensures match Spec.UnregisterCa(cfg, old(View()), manager, name)
              case Ok(after) => failed == None && View() == after
              case Err(e) => failed == Some(e) && View() == old(View())
    {
      hide Bookkept;
      CallBookkeeps(cfg, View(), Spec.Unregister(manager, name));
      if !manager { return Some(Spec.BadOrigin); }
      if |name| > cfg.maxNameLength { return Some(Spec.CaNameTooLong); }
      var before := revoked;
      revoked := revoked - {name};
      if name !in cas {
        revoked := before;
        return Some(Spec.CaNotFound);
      }
      cas := cas - {name};
      failed := None;
    }

    /** Keep the entries of other issuers. */
    static method Retain(store: seq<Spec.Revoked>, issuer: Bytes) returns (kept: seq<Spec.Revoked>)
      ensures kept == Spec.Without(store, issuer)
    {
      kept := [];
      for i := 0 to |store|
        invariant kept + Spec.Without(store[i..], issuer) == Spec.Without(store, issuer)
      {
        assert store[i..][1..] == store[i + 1..];
        if store[i].issuer != issuer { kept := kept + [store[i]]; }
      }
      assert store[|store|..] == [];
      assert kept + [] == kept;
    }

    /** Replace one issuer's entries in an authority's vector; returns the new length. */
    method MergeRevoked(name: Bytes, entries: seq<Spec.Revoked>, issuer: Bytes) returns (count: Spec.Result<nat>)
      modifies this`revoked
      ensures match Spec.Merge(if name in old(revoked) then old(revoked)[name] else [], entries, issuer)
              case Ok(store) => count == Spec.Ok(|store|) && revoked == old(revoked)[name := store]
              case Err(e) => count == Spec.Err(e) && revoked == old(revoked)
    {
      var store := if name in revoked then revoked[name] else [];
      store := Retain(store, issuer);
      ghost var kept := store;
      for i := 0 to |entries|
        invariant store == kept + entries[..i]
        invariant Spec.Obstacle(entries[i..], |store|) == Spec.Obstacle(entries, |kept|)
        invariant revoked == old(revoked)
      {
        assert entries[i..][1..] == entries[i + 1..];
        if |entries[i].issuer| > Spec.MAX_CERT_ISSUER_LENGTH { return Spec.Err(Spec.IssuerTooLarge); }
        if |entries[i].serial| > Spec.MAX_CERT_SERIAL_LENGTH { return Spec.Err(Spec.SerialNumberTooLarge); }
        if |store| >= Spec.MAX_REVOKED_CERTS_PER_CA { return Spec.Err(Spec.TooManyRevokedCerts); }
        store := store + [entries[i]];
      }
      assert entries[|entries|..] == [] && entries[..|entries|] == entries;
      revoked := revoked[name := store];
      count := Spec.Ok(|store|);
    }

    /** `parsed` is what the parser answers for this input and the authority's root certificate. */
    method UpdateCrl(signed: bool, name: Bytes, input: Spec.CrlInput,
                     parsed: Option<Spec.Crl>) returns (failed: Option<Spec.Error>)
      requires Valid()
      modifies this
      ensures Valid()
      ensures match Spec.UpdateCrl(cfg, old(View()), signed, name, input, parsed)
              case Ok(after) => failed == None && View() == after
              case Err(e) => failed == Some(e) && View() == old(View())
    {
      hide Bookkept, Spec.Merge;
      CallBookkeeps(cfg, View(), Spec.Update(signed, name, input, parsed));
      if !signed { return Some(Spec.BadOrigin); }
      if |name| > cfg.maxNameLength { return Some(Spec.CaNameTooLong); }
      if name !in cas { return Some(Spec.CaNotFound); }
      var info := cas[name];
      if |input.crl| > Spec.MAX_CRL_LENGTH {
        return Some(if input.Pem? then Spec.CrlPemTooLarge else Spec.CrlDerTooLarge);
      }
      if |input.chain| > Spec.MAX_CERT_CHAIN_LENGTH {
        return Some(if input.Pem? then Spec.CertChainPemTooLarge else Spec.CertChainDerTooLarge);
      }
      if parsed.None? { return Some(Spec.CrlValidationError); }
      var crl := parsed.value;
      if crl.entries == [] { return Some(Spec.EmptyCrl); }
      var issuer := crl.entries[0].issuer;
      var key := cfg.hash(issuer);
      if key in info.versions && crl.thisUpdate <= info.versions[key] { return Some(Spec.NotNewerCrl); }
      var before := revoked;
      var count := MergeRevoked(name, crl.entries, issuer);
      if count.Err? { return Some(count.error); }
      if key !in info.versions && |info.versions| >= Spec.MAX_ISSUERS_PER_CA {
        // the transaction is rolled back
        revoked := before;
        return Some(Spec.TooManyIssuers);
      }
      info := info.(versions := info.versions[key := crl.thisUpdate], revokedCount := count.value);
      cas := cas[name := info];
      failed := None;
    }

    /** The entries of a registered authority, and nothing for any other name: as many as its record
        counts, each of an issuer whose version is recorded, and at least one for every
        recorded version. */
    method GetCrl(name: Bytes) returns (found: Option<seq<Spec.Revoked>>)
      requires Valid()
      ensures found.Some? <==> name in cas
      ensures found.Some? ==>
                && found.value == revoked[name]
                && |found.value| == cas[name].revokedCount
                && (forall e :: e in found.value ==> cfg.hash(e.issuer) in cas[name].versions)
                && (forall k :: k in cas[name].versions ==> exists e :: e in found.value && cfg.hash(e.issuer) == k)
    {
      if |name| > cfg.maxNameLength || name !in revoked { return None; }
      found := Some(revoked[name]);
    }
  }
}
