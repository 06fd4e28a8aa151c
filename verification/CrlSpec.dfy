/**
 The certificate revocation pallet as a state machine over its two storage maps, and the
 simple machine it refines: for every authority, the newest accepted list of every issuer.

 Issuer and `thisUpdate` are the fields of sections 5.1.2.3 and 5.1.2.4 of RFC 5280.
 Parsing and signature checking are not part of this model: a call carries the parser's
 result. The parser returns lists whose entries share one issuer.
 */
module CrlSpec {
  import opened Prelude

  const MAX_CRL_LENGTH: nat := 65536
  const MAX_CERT_CHAIN_LENGTH: nat := 16384
  const MAX_ROOT_CERT_LENGTH: nat := 2048
  const MAX_REVOKED_CERTS_PER_CA: nat := 10000
  const MAX_ISSUERS_PER_CA: nat := 10
  const MAX_CERT_ISSUER_LENGTH: nat := 256
  const MAX_CERT_SERIAL_LENGTH: nat := 32

  datatype Revoked = Revoked(issuer: Bytes, serial: Bytes)

  predicate OneIssuer(es: seq<Revoked>) {
    forall i, j :: 0 <= i < j < |es| ==> es[i].issuer == es[j].issuer
  }

  type Entries = es: seq<Revoked> | OneIssuer(es)

  datatype Crl = Crl(thisUpdate: nat, entries: Entries)

  datatype CrlInput = Pem(crl: Bytes, chain: Bytes) | Der(crl: Bytes, chain: Bytes)

  datatype CaInfo = CaInfo(rootCert: Bytes, revokedCount: nat, versions: map<Digest, nat>)

  datatype Error =
    | BadOrigin
    | CaNameTooLong
    | CaNameEmpty
    | RootCertEmpty
    | CaAlreadyRegistered
    | CaNotFound
    | RootCertTooLarge
    | CrlPemTooLarge
    | CertChainPemTooLarge
    | CrlDerTooLarge
    | CertChainDerTooLarge
    | CrlValidationError
    | TooManyRevokedCerts
    | IssuerTooLarge
    | SerialNumberTooLarge
    | NotNewerCrl
    | TooManyIssuers
    | EmptyCrl

  datatype Result<+T> = Ok(value: T) | Err(error: Error)

  datatype Config = Config(maxNameLength: nat, hash: Bytes -> Digest)

  datatype Store = Store(cas: map<Bytes, CaInfo>, revoked: map<Bytes, seq<Revoked>>)

  /** Entries of other issuers. */
  function Without(store: seq<Revoked>, issuer: Bytes): seq<Revoked> {
    if store == [] then []
    else (if store[0].issuer != issuer then [store[0]] else []) + Without(store[1..], issuer)
  }

  /** Entries of one issuer. */
  function Only(store: seq<Revoked>, issuer: Bytes): seq<Revoked> {
    if store == [] then []
    else (if store[0].issuer == issuer then [store[0]] else []) + Only(store[1..], issuer)
  }

  /** Why appending `es` to a vector of length `used` fails, if it does: the first entry that is
      too long, or that finds the vector full. */
  function Obstacle(es: seq<Revoked>, used: nat): Option<Error> {
    if es == [] then None
    else if |es[0].issuer| > MAX_CERT_ISSUER_LENGTH then Some(IssuerTooLarge)
    else if |es[0].serial| > MAX_CERT_SERIAL_LENGTH then Some(SerialNumberTooLarge)
    else if used >= MAX_REVOKED_CERTS_PER_CA then Some(TooManyRevokedCerts)
    else Obstacle(es[1..], used + 1)
  }

  function InputError(input: CrlInput): Option<Error> {
    if |input.crl| > MAX_CRL_LENGTH then Some(if input.Pem? then CrlPemTooLarge else CrlDerTooLarge)
    else if |input.chain| > MAX_CERT_CHAIN_LENGTH then
      Some(if input.Pem? then CertChainPemTooLarge else CertChainDerTooLarge)
    else None
  }

  /* ---------- the pallet ---------- */

  function RegisterCa(cfg: Config, s: Store, manager: bool, name: Bytes, rootCert: Bytes): Result<Store> {
    if !manager then Err(BadOrigin)
    else if name == [] then Err(CaNameEmpty)
    else if rootCert == [] then Err(RootCertEmpty)
    else if |name| > cfg.maxNameLength then Err(CaNameTooLong)
    else if name in s.cas then Err(CaAlreadyRegistered)
    else if |rootCert| > MAX_ROOT_CERT_LENGTH then Err(RootCertTooLarge)
    else Ok(Store(s.cas[name := CaInfo(rootCert, 0, map[])], s.revoked[name := []]))
  }

  function UnregisterCa(cfg: Config, s: Store, manager: bool, name: Bytes): Result<Store> {
    if !manager then Err(BadOrigin)
    else if |name| > cfg.maxNameLength then Err(CaNameTooLong)
    else if name !in s.cas then Err(CaNotFound)
    else Ok(Store(s.cas - {name}, s.revoked - {name}))
  }

  /** `merge_revoked_certs_for_ca`: replace one issuer's entries. */
  function Merge(store: seq<Revoked>, es: seq<Revoked>, issuer: Bytes): Result<seq<Revoked>> {
    var kept := Without(store, issuer);
    match Obstacle(es, |kept|)
    case Some(e) => Err(e)
    case None => Ok(kept + es)
  }

  function UpdateCrl(cfg: Config, s: Store, signed: bool, name: Bytes, input: CrlInput,
                     parsed: Option<Crl>): Result<Store> {
    if !signed then Err(BadOrigin)
    else if |name| > cfg.maxNameLength then Err(CaNameTooLong)
    else if name !in s.cas then Err(CaNotFound)
    else if InputError(input).Some? then Err(InputError(input).value)
    else if parsed.None? then Err(CrlValidationError)
    else if parsed.value.entries == [] then Err(EmptyCrl)
    else
      var info, crl := s.cas[name], parsed.value;
      var issuer := crl.entries[0].issuer;
      var key := cfg.hash(issuer);
      if key in info.versions && crl.thisUpdate <= info.versions[key] then Err(NotNewerCrl)
      else
        match Merge(if name in s.revoked then s.revoked[name] else [], crl.entries, issuer)
        case Err(e) => Err(e)
        case Ok(store) =>
          if key !in info.versions && |info.versions| >= MAX_ISSUERS_PER_CA then Err(TooManyIssuers)
          else Ok(Store(s.cas[name := info.(versions := info.versions[key := crl.thisUpdate], revokedCount := |store|)],
                        s.revoked[name := store]))
  }

  /** `get_crl`: the stored entries, an error for an unknown authority. */
  function GetCrl(cfg: Config, s: Store, name: Bytes): Option<seq<Revoked>> {
    if |name| <= cfg.maxNameLength && name in s.revoked then Some(s.revoked[name]) else None
  }

  datatype Call =
    | Register(manager: bool, name: Bytes, rootCert: Bytes)
    | Unregister(manager: bool, name: Bytes)
    | Update(signed: bool, name: Bytes, input: CrlInput, parsed: Option<Crl>)

  function Apply(cfg: Config, s: Store, c: Call): Result<Store> {
    match c
    case Register(manager, name, rootCert) => RegisterCa(cfg, s, manager, name, rootCert)
    case Unregister(manager, name) => UnregisterCa(cfg, s, manager, name)
    case Update(signed, name, input, parsed) => UpdateCrl(cfg, s, signed, name, input, parsed)
  }

  /** A failed call changes nothing. */
  function Next(cfg: Config, s: Store, c: Call): Store {
    match Apply(cfg, s, c)
    case Ok(after) => after
    case Err(_) => s
  }

  function Run(cfg: Config, s: Store, calls: seq<Call>): Store
    decreases |calls|
  {
    if calls == [] then s else Run(cfg, Next(cfg, s, calls[0]), calls[1..])
  }

  const EMPTY: Store := Store(map[], map[])

  /* ---------- the simple machine ---------- */

  /** The newest list of every issuer. */
  type Lists = map<Bytes, Crl>

  /** For every authority: its root certificate and its issuers' newest lists. */
  type Registry = map<Bytes, (Bytes, Lists)>

  ghost function AllEntries(m: Lists): multiset<Revoked> {
    if m == map[] then multiset{}
    else var i :| i in m; multiset(m[i].entries) + AllEntries(m - {i})
  }

  /** Accept a list that is newer than its issuer's and keeps the authority within its limits. */
  ghost function Accept(m: Lists, crl: Crl): Result<Lists>
    requires crl.entries != []
  {
    var issuer := crl.entries[0].issuer;
    if issuer in m && crl.thisUpdate <= m[issuer].thisUpdate then Err(NotNewerCrl)
    else if Obstacle(crl.entries, |AllEntries(m - {issuer})|).Some? then
      Err(Obstacle(crl.entries, |AllEntries(m - {issuer})|).value)
    else if issuer !in m && |m| >= MAX_ISSUERS_PER_CA then Err(TooManyIssuers)
    else Ok(m[issuer := crl])
  }

  ghost function AbstractApply(cfg: Config, r: Registry, c: Call): Result<Registry> {
    match c
    case Register(manager, name, rootCert) =>
      if !manager then Err(BadOrigin)
      else if name == [] then Err(CaNameEmpty)
      else if rootCert == [] then Err(RootCertEmpty)
      else if |name| > cfg.maxNameLength then Err(CaNameTooLong)
      else if name in r then Err(CaAlreadyRegistered)
      else if |rootCert| > MAX_ROOT_CERT_LENGTH then Err(RootCertTooLarge)
      else Ok(r[name := (rootCert, map[])])
    case Unregister(manager, name) =>
      if !manager then Err(BadOrigin)
      else if |name| > cfg.maxNameLength then Err(CaNameTooLong)
      else if name !in r then Err(CaNotFound)
      else Ok(r - {name})
    case Update(signed, name, input, parsed) =>
      if !signed then Err(BadOrigin)
      else if |name| > cfg.maxNameLength then Err(CaNameTooLong)
      else if name !in r then Err(CaNotFound)
      else if InputError(input).Some? then Err(InputError(input).value)
      else if parsed.None? then Err(CrlValidationError)
      else if parsed.value.entries == [] then Err(EmptyCrl)
      else
        match Accept(r[name].1, parsed.value)
        case Err(e) => Err(e)
        case Ok(lists) => Ok(r[name := (r[name].0, lists)])
  }

  ghost function AbstractNext(cfg: Config, r: Registry, c: Call): Registry {
    match AbstractApply(cfg, r, c)
    case Ok(after) => after
    case Err(_) => r
  }

  ghost function AbstractRun(cfg: Config, r: Registry, calls: seq<Call>): Registry
    decreases |calls|
  {
    if calls == [] then r else AbstractRun(cfg, AbstractNext(cfg, r, calls[0]), calls[1..])
  }
}
