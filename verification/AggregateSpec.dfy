/**
 The aggregation pallet as a state machine: storage, the transition of every call, and runs.

 Extrinsics are transactional, so a failed call leaves the state as it was. Whatever the
 pallet asks of code outside it (fee estimates, holds, best-effort moves, consideration
 tickets, dispatching) is an argument of the call, so a run ranges over every answer.
 */
module AggregateSpec {
  import opened Prelude
  import opened Ledger
  import opened AggregateData
  import opened Merkle
  import opened AggregateEncoding

  /** `checked` builds panic on arithmetic overflow and on failed debug assertions, as the testnet
      profile does; others wrap around and saturate, as the production profile does. */
  datatype Config = Config(layout: Layout, hash: Hasher, checked: bool)

  /**
   Storage, then the ledger, then what an observer has seen: every event so far, every
   aggregation ever published (by domain and aggregation id), every removed domain, and every
   deposit ticket given back with the account it was given back to.
   */
  datatype State = State(
    nextDomainId: nat,
    domains: map<nat, Domain>,
    allowlist: set<(nat, Account)>,
    published: seq<(nat, AggregationEntry)>,
    balances: Balances,
    events: seq<Event>,
    archive: map<(nat, nat), AggregationEntry>,
    removed: map<nat, Domain>,
    refunds: seq<(Ticket, Account)>)

  datatype Outcome = Done(state: State) | Failed(error: Error) | Panicked(site: Site)

  function Emit(s: State, es: seq<Event>): State { s.(events := s.events + es) }

  function Statements(a: AggregationEntry): seq<Bytes> {
    seq(|a.statements|, i requires 0 <= i < |a.statements| => a.statements[i].statement)
  }

  function Receipt(cfg: Config, a: AggregationEntry): Digest { MerkleRoot(cfg.hash, Statements(a)) }

  /* ---------- operations of a domain ---------- */

  function Submitters(allowlist: set<(nat, Account)>, d: nat): set<Account> {
    set e <- allowlist | e.0 == d :: e.1
  }

  predicate AllowlistEmpty(d: Domain, allowlist: set<(nat, Account)>) {
    d.proofRules != OnlyAllowlisted || Submitters(allowlist, d.id) == {}
  }

  /** Nothing is waiting in the domain. */
  predicate Drained(d: Domain, allowlist: set<(nat, Account)>) {
    d.shouldPublish == map[] && d.next.statements == [] && AllowlistEmpty(d, allowlist)
  }

  function UpdateHoldState(d: Domain, allowlist: set<(nat, Account)>): Domain {
    d.(state := if Drained(d, allowlist) then Removable else Hold)
  }

  function HandleHoldState(d: Domain, allowlist: set<(nat, Account)>): (Domain, seq<Event>) {
    if d.state == Ready then (d, [])
    else
      var after := UpdateHoldState(d, allowlist);
      (after, if after.state != d.state then [DomainStateChanged(d.id, after.state)] else [])
  }

  /** Close the open aggregation. When its id has no successor the domain is put on hold and
      an empty aggregation with id 0 takes its place. */
  function PopNext(d: Domain): (Domain, seq<Event>, Option<AggregationEntry>) {
    if d.next.statements == [] then (d, [], None)
    else
      match d.next.CreateNext()
      case Some(successor) => (d.(next := successor), [], Some(d.next))
      case None =>
        (d.(state := Hold, next := AggregationEntry(0, d.next.size, [])), [DomainStateChanged(d.id, Hold)],
         Some(d.next))
  }

  function TakeAggregation(d: Domain, id: nat): (Domain, seq<Event>, Option<AggregationEntry>) {
    if d.next.id == id then PopNext(d)
    else if id in d.shouldPublish then (d.(shouldPublish := d.shouldPublish - {id}), [], Some(d.shouldPublish[id]))
    else (d, [], None)
  }

  /** Who may submit; no answer stands for the panic on a domain without an owner account. */
  function MayAddProof(d: Domain, allowlist: set<(nat, Account)>, account: Account): Option<bool> {
    match d.proofRules
    case AnyoneSubmits => Some(true)
    case OnlyOwnerSubmits => if d.owner.Signer? then Some(account == d.owner.id) else None
    case OnlyAllowlisted => Some((d.id, account) in allowlist)
  }

  predicate MayAggregate(d: Domain, who: User, a: AggregationEntry) {
    var owns := who == Signer(d.delivery.owner) || who == d.owner || who.Manager?;
    match d.aggregateRules
    case AnyoneAggregates => true
    case OnlyOwnerAggregates => owns
    case OnlyOwnerUncompleted => a.Completed() || owns
  }

  predicate MayHandle(d: Domain, who: User) { who.Manager? || d.owner == who }

  predicate MaySetFee(d: Domain, who: User) { who.Manager? || d.owner == who || who == Signer(d.delivery.owner) }

  /* ---------- submitting a verified proof ---------- */

  /** What the environment answers while funds are reserved. */
  datatype Quote = Quote(estimated: nat, tip: Option<nat>, grantAggregation: bool, grantDelivery: bool) {
    /** Fee for publishing one aggregation: the estimate plus the tip, saturating. */
    function PublishFee(): nat { Min(Sum(), U128_MAX) }

    function Sum(): nat { estimated + if tip.Some? then tip.value else 0 }
  }

  /** The part of a fee that each statement of an aggregation pays. */
  function Share(total: nat, size: nat): nat
    requires size > 0
  {
    total / size
  }

  /** Where a checked build panics while it computes the two shares. */
  function FeePanic(cfg: Config, d: Domain, q: Quote): Option<Site> {
    if !cfg.checked then None
    else if q.Sum() > U128_MAX then Some(TipOverflow)
    else if d.next.size == 0 then Some(FeeDivision)
    else if d.delivery.Overflows() then Some(FeeOverflow)
    else None
  }

  datatype Reservation =
    | Reserved(reserve: Reserve, balances: Balances)
    | Unfunded(balances: Balances)
    | ReservePanic(site: Site)

  function ReserveCurrency(b: Balances, d: Domain, who: Account, q: Quote): Reservation {
    if d.next.size == 0 then ReservePanic(FeeDivision)
    else
      var reserve := Reserve(Share(q.PublishFee(), d.next.size), Share(d.delivery.TotalFee(), d.next.size));
      match Ledger.Hold(b, Aggregation, who, reserve.aggregate, q.grantAggregation)
      case None => Unfunded(b)
      case Some(first) =>
        match Ledger.Hold(first, Delivery, who, reserve.delivery, q.grantDelivery)
        case Some(both) => Reserved(reserve, both)
        case None =>
          match ReleaseExact(first, Aggregation, who, reserve.aggregate)
          case Some(undone) => Unfunded(undone)
          case None => ReservePanic(UndoRelease)
  }

  /** The domain after a statement is appended, and the events; a completed aggregation joins
      the queue. */
  function AppendStatement(cfg: Config, d: Domain, e: StatementEntry): (Option<(Domain, seq<Event>)>, Site) {
    var full := d.(next := d.next.(statements := d.next.statements + [e]));
    if |d.next.statements| >= cfg.layout.aggregationSize then (None, StatementPush)
    else if |full.next.statements| < full.next.size then (Some((full, [])), StatementPush)
    else
      var (popped, es, closed) := PopNext(full);
      var a := closed.value;
      if a.id !in popped.shouldPublish && |popped.shouldPublish| >= cfg.layout.queueSize then (None, QueueInsert)
      else
        var queued := popped.(shouldPublish := popped.shouldPublish[a.id := a]);
        var alert := if |queued.shouldPublish| >= queued.publishQueueSize then [DomainFull(d.id)] else [];
        (Some((queued, es + [AggregationComplete(d.id, a.id)] + alert)), QueueInsert)
  }

  function AcceptStatement(cfg: Config, s: State, d: nat, e: StatementEntry): Outcome
    requires d in s.domains
  {
    var dom := s.domains[d];
    match AppendStatement(cfg, dom, e)
    case (None, site) => Panicked(site)
    case (Some((appended, es)), _) =>
      var (held, hs) := HandleHoldState(appended, s.allowlist);
      Done(Emit(s.(domains := s.domains[d := held]), [NewProof(e.statement, d, dom.next.id)] + es + hs))
  }

  function OnProofVerified(cfg: Config, s: State, account: Option<Account>, domainId: Option<nat>, statement: Digest,
                           q: Quote): Outcome {
    if account.None? then Done(Emit(s, [CannotAggregate(statement, NoAccount)]))
    else if domainId.None? then Done(s)
    else
      var who, d := account.value, domainId.value;
      if d !in s.domains then Done(Emit(s, [CannotAggregate(statement, DomainNotRegistered(d))]))
      else
        var dom := s.domains[d];
        if dom.state != Ready then Done(Emit(s, [CannotAggregate(statement, InvalidState(d, dom.state))]))
        else if !dom.CanAddStatement() then Done(Emit(s, [CannotAggregate(statement, DomainStorageFull(d))]))
        else
          match MayAddProof(dom, s.allowlist, who)
          case None => Panicked(MissingOwner)
          case Some(false) => Done(Emit(s, [CannotAggregate(statement, UnauthorizedUser)]))
          case Some(true) =>
            if FeePanic(cfg, dom, q).Some? then Panicked(FeePanic(cfg, dom, q).value)
            else
              match ReserveCurrency(s.balances, dom, who, q)
              case ReservePanic(site) => Panicked(site)
              case Unfunded(b) => Done(Emit(s.(balances := b), [CannotAggregate(statement, InsufficientFunds)]))
              case Reserved(reserve, b) =>
                AcceptStatement(cfg, s.(balances := b), d, StatementEntry(who, reserve, statement))
  }

  /* ---------- publishing an aggregation ---------- */

  datatype Payment = Payment(aggregation: Settlement, delivery: Settlement) {
    predicate Full() { aggregation.Full() && delivery.Full() }
  }

  function PayStatement(b: Balances, e: StatementEntry, caller: Option<Account>, deliveryOwner: Account,
                        p: Payment): Balances {
    var paid := HandleHeldFunds(b, Aggregation, e.account, caller, e.reserve.aggregate, p.aggregation);
    HandleHeldFunds(paid, Delivery, e.account, Some(deliveryOwner), e.reserve.delivery, p.delivery)
  }

  /** Settle the statements from the `i`-th on. */
  function PayFrom(b: Balances, es: seq<StatementEntry>, i: nat, caller: Option<Account>, deliveryOwner: Account,
                   pay: nat -> Payment): Balances
    requires i <= |es|
    decreases |es| - i
  {
    if i == |es| then b
    else PayFrom(PayStatement(b, es[i], caller, deliveryOwner, pay(i)), es, i + 1, caller, deliveryOwner, pay)
  }

  function Publish(cfg: Config, s: State, origin: Option<User>, d: nat, id: nat, pay: nat -> Payment,
                   dispatched: bool): Outcome {
    if origin.None? then Failed(BadOrigin)
    else if d !in s.domains then Failed(UnknownDomainId)
    else
      var dom := s.domains[d];
      var (taken, es, found) := TakeAggregation(dom, id);
      if found.None? then Failed(InvalidAggregationId)
      else if !MayAggregate(taken, origin.value, found.value) then Failed(BadOrigin)
      else if !dispatched then Failed(DispatchFailed)
      else
        var a := found.value;
        var (held, hs) := HandleHoldState(taken, s.allowlist);
        Done(Emit(s.(
          domains := s.domains[d := held],
          balances := PayFrom(s.balances, a.statements, 0, origin.value.AccountId(), dom.delivery.owner, pay),
          published := s.published + [(d, a)],
          archive := s.archive[(d, id) := a]),
          es + hs + [NewAggregationReceipt(d, id, Receipt(cfg, a))]))
  }

  /* ---------- managing domains ---------- */

  /** Whether the two consideration tickets can be taken out. */
  datatype Deposits = Deposits(domain: bool, allowlist: bool)

  function Register(cfg: Config, s: State, origin: Option<User>, size: nat, queueSize: Option<nat>,
                    aggregateRules: AggregateRules,
                    proofRules: ProofRules, fee: nat, ownerTip: nat, deliveryOwner: Option<Account>,
                    deposits: Deposits): Outcome {
    if origin.None? then Failed(BadOrigin)
    else
      var who := origin.value;
      var payee := if deliveryOwner.Some? then deliveryOwner else who.AccountId();
      var id := s.nextDomainId;
      var queue := if queueSize.Some? then queueSize.value else cfg.layout.queueSize;
      if payee.None? then Failed(MissedDeliveryOwnership)
      else if id == U32_MAX then Failed(InvalidDomainParams)
      else if who.Signer? && !deposits.domain then Failed(ConsiderationFailed)
      else if who.Signer? && proofRules == OnlyAllowlisted && !deposits.allowlist then Failed(ConsiderationFailed)
      else if size == 0 || queue == 0 then Failed(InvalidDomainParams)
      else if size > cfg.layout.aggregationSize || queue > cfg.layout.queueSize then Failed(InvalidDomainParams)
      else
        var ticket :=
          if who.Signer? then Some(Ticket(who.id, 1, ComputeEncodedSize(cfg.layout, size, queue))) else None;
        var countable :=
          if who.Signer? && proofRules == OnlyAllowlisted then Some(CountableTicket(Ticket(who.id, 0, 0), 0)) else None;
        var dom := Domain(id, who, Ready, AggregationEntry(1, size, []), size, map[], queue, ticket, countable,
                          aggregateRules,
                          proofRules, DeliveryParams(payee.value, fee, ownerTip));
        Done(Emit(s.(domains := s.domains[id := dom], nextDomainId := id + 1), [NewDomain(id)]))
  }

  function HoldDomain(s: State, origin: Option<User>, d: nat): Outcome {
    if origin.None? then Failed(BadOrigin)
    else if d !in s.domains then Failed(UnknownDomainId)
    else if !MayHandle(s.domains[d], origin.value) then Failed(BadOrigin)
    else if s.domains[d].state != Ready then Failed(InvalidDomainState)
    else
      var held := UpdateHoldState(s.domains[d], s.allowlist);
      Done(Emit(s.(domains := s.domains[d := held]), [DomainStateChanged(d, held.state)]))
  }

  /** Whose account a ticket is given back to when `who` unregisters the domain. */
  function RefundTo(who: User, dom: Domain): Option<Account> {
    if who.AccountId().Some? then who.AccountId() else dom.owner.AccountId()
  }

  /** Give a ticket back, if there is one and an account for it. */
  function GiveBack(ticket: Option<Ticket>, to: Option<Account>): seq<(Ticket, Account)> {
    if ticket.Some? && to.Some? then [(ticket.value, to.value)] else []
  }

  function Countless(ticket: Option<CountableTicket>): Option<Ticket> {
    if ticket.Some? then Some(ticket.value.ticket) else None
  }

  function Unregister(s: State, origin: Option<User>, d: nat): Outcome {
    if origin.None? then Failed(BadOrigin)
    else if d !in s.domains then Failed(UnknownDomainId)
    else if !MayHandle(s.domains[d], origin.value) then Failed(BadOrigin)
    else if s.domains[d].state != Removable then Failed(InvalidDomainState)
    else
      var gone := s.domains[d].(state := Removed, ticketDomain := None, ticketAllowlist := None);
      var to := RefundTo(origin.value, s.domains[d]);
      var back := GiveBack(s.domains[d].ticketDomain, to) + GiveBack(Countless(s.domains[d].ticketAllowlist), to);
      Done(Emit(s.(domains := s.domains - {d}, removed := s.removed[d := gone], refunds := s.refunds + back),
                [DomainStateChanged(d, Removed)]))
  }

  function SetTotalDeliveryFee(s: State, origin: Option<User>, d: nat, fee: nat, ownerTip: nat): Outcome {
    if origin.None? then Failed(BadOrigin)
    else if d !in s.domains then Failed(UnknownDomainId)
    else if !MaySetFee(s.domains[d], origin.value) then Failed(BadOrigin)
    else
      var dom := s.domains[d];
      Done(s.(domains := s.domains[d := dom.(delivery := dom.delivery.(fee := fee, ownerTip := ownerTip))]))
  }

  /** A `Vec` of accounts; its length is a `usize` of the 32 bit runtime. */
  type Batch = b: seq<Account> | |b| <= U32_MAX

  function Entries(d: nat, submitters: seq<Account>): set<(nat, Account)> {
    set a <- submitters :: (d, a)
  }

  /** Set the ticket's count, unless the domain has no ticket; the ticket's price may be refused. */
  function Recount(dom: Domain, count: int, updated: bool): Option<Domain> {
    match dom.ticketAllowlist
    case None => Some(dom)
    case Some(t) =>
      if !(0 <= count <= U32_MAX) || !updated then None
      else Some(dom.(ticketAllowlist := Some(CountableTicket(Ticket(t.ticket.payer, count, 0), count))))
  }

  function TicketCount(dom: Domain): u32 {
    if dom.ticketAllowlist.Some? then dom.ticketAllowlist.value.count else 0
  }

  /** Why a recount failed. */
  function RecountError(count: int): Error {
    if 0 <= count <= U32_MAX then ConsiderationFailed else InvalidDomainParams
  }

  function AllowlistSubmitters(s: State, origin: Option<User>, d: nat, submitters: Batch, updated: bool): Outcome {
    if origin.None? then Failed(BadOrigin)
    else if d !in s.domains then Failed(UnknownDomainId)
    else
      var dom := s.domains[d];
      if !MayHandle(dom, origin.value) then Failed(BadOrigin)
      else if dom.state != Ready || dom.proofRules != OnlyAllowlisted then Failed(InvalidDomainParams)
      else
        var added := Entries(dom.id, submitters) - s.allowlist;
        var count := TicketCount(dom) + |added|;
        match Recount(dom, count, updated)
        case None => Failed(RecountError(count))
        case Some(counted) => Done(s.(allowlist := s.allowlist + added, domains := s.domains[d := counted]))
  }

  function RemoveSubmitters(s: State, origin: Option<User>, d: nat, submitters: Batch, updated: bool): Outcome {
    if origin.None? then Failed(BadOrigin)
    else if d !in s.domains then Failed(UnknownDomainId)
    else
      var dom := s.domains[d];
      if !MayHandle(dom, origin.value) then Failed(BadOrigin)
      else if dom.proofRules != OnlyAllowlisted then Failed(InvalidDomainParams)
      else
        var dropped := Entries(dom.id, submitters) * s.allowlist;
        var count := TicketCount(dom) - |dropped|;
        match Recount(dom, count, updated)
        case None => Failed(RecountError(count))
        case Some(counted) =>
          var (held, hs) := HandleHoldState(counted, s.allowlist - dropped);
          Done(Emit(s.(allowlist := s.allowlist - dropped, domains := s.domains[d := held]), hs))
  }

  /* ---------- inclusion paths ---------- */

  datatype PathResult = Found(root: Digest, proof: InclusionProof) | NotFound | ReceiptNotPublished | IndexOutOfBounds

  /** The block's first published aggregation with this domain and id. */
  function FirstPublished(published: seq<(nat, AggregationEntry)>, d: nat, id: nat): Option<AggregationEntry> {
    if published == [] then None
    else if published[0].0 == d && published[0].1.id == id then Some(published[0].1)
    else FirstPublished(published[1..], d, id)
  }

  /** Index of the first entry with this statement, or the length. */
  function Position(es: seq<StatementEntry>, statement: Digest): nat {
    if es == [] || es[0].statement == statement then 0 else 1 + Position(es[1..], statement)
  }

  function GetStatementPath(cfg: Config, published: seq<(nat, AggregationEntry)>, d: nat, id: nat,
                            statement: Digest): PathResult {
    match FirstPublished(published, d, id)
    case None => ReceiptNotPublished
    case Some(a) =>
      var i := Position(a.statements, statement);
      if i >= |a.statements| then NotFound
      else if i > U32_MAX then IndexOutOfBounds
      else Found(Receipt(cfg, a), MerkleProof(cfg.hash, Statements(a), i))
  }

  /* ---------- runs ---------- */

  datatype Call =
    | Submit(account: Option<Account>, domain: Option<nat>, statement: Digest, quote: Quote)
    | Aggregate(origin: Option<User>, domainId: nat, aggregationId: nat, pay: nat -> Payment, dispatched: bool)
    | RegisterDomain(origin: Option<User>, size: nat, queueSize: Option<nat>, aggregateRules: AggregateRules,
                     proofRules: ProofRules,
                     fee: nat, ownerTip: nat, deliveryOwner: Option<Account>, deposits: Deposits)
    | Halt(origin: Option<User>, domainId: nat)
    | UnregisterDomain(origin: Option<User>, domainId: nat)
    | SetFee(origin: Option<User>, domainId: nat, fee: nat, ownerTip: nat)
    | AddSubmitters(origin: Option<User>, domainId: nat, submitters: Batch, updated: bool)
    | DropSubmitters(origin: Option<User>, domainId: nat, submitters: Batch, updated: bool)
    | OnInitialize
    | OtherPallets(free: multiset<Account>)

  function Apply(cfg: Config, s: State, c: Call): Outcome {
    match c
    case Submit(account, domain, statement, quote) => OnProofVerified(cfg, s, account, domain, statement, quote)
    case Aggregate(origin, d, id, pay, dispatched) => Publish(cfg, s, origin, d, id, pay, dispatched)
    case RegisterDomain(origin, size, queue, ar, pr, fee, tip, payee, deposits) =>
      Register(cfg, s, origin, size, queue, ar, pr, fee, tip, payee, deposits)
    case Halt(origin, d) => HoldDomain(s, origin, d)
    case UnregisterDomain(origin, d) => Unregister(s, origin, d)
    case SetFee(origin, d, fee, tip) => SetTotalDeliveryFee(s, origin, d, fee, tip)
    case AddSubmitters(origin, d, submitters, updated) => AllowlistSubmitters(s, origin, d, submitters, updated)
    case DropSubmitters(origin, d, submitters, updated) => RemoveSubmitters(s, origin, d, submitters, updated)
    case OnInitialize => Done(s.(published := []))
    case OtherPallets(free) => Done(s.(balances := s.balances.(free := free)))
  }

  /** A call that fails or panics changes nothing. */
  function Next(cfg: Config, s: State, c: Call): State {
    match Apply(cfg, s, c)
    case Done(after) => after
    case _ => s
  }

  function Run(cfg: Config, s: State, calls: seq<Call>): State
    decreases |calls|
  {
    if calls == [] then s else Run(cfg, Next(cfg, s, calls[0]), calls[1..])
  }

  function Genesis(free: multiset<Account>): State {
    State(0, map[], {}, [], Balances(free, multiset{}), [], map[], map[], [])
  }
}
