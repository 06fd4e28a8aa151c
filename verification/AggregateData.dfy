/** The records stored by the aggregation pallet and the operations of a single record. */
module AggregateData {
  import opened Prelude
  import opened Ledger

  datatype User = Signer(id: Account) | Manager {
    function AccountId(): Option<Account> {
      if Signer? then Some(id) else None
    }
  }

  datatype Reserve = Reserve(aggregate: nat, delivery: nat)

  datatype StatementEntry = StatementEntry(account: Account, reserve: Reserve, statement: Digest)

  datatype AggregationEntry = AggregationEntry(id: nat, size: nat, statements: seq<StatementEntry>) {
    /** The empty successor, or nothing once the 64 bit ids are used up. */
    function CreateNext(): Option<AggregationEntry> {
      if id + 1 <= U64_MAX then Some(AggregationEntry(id + 1, size, [])) else None
    }

    function SpaceLeft(): nat {
      if size <= |statements| then 0 else size - |statements|
    }

    predicate Completed() { SpaceLeft() == 0 }
  }

  datatype DomainState = Ready | Hold | Removable | Removed

  datatype AggregateRules = AnyoneAggregates | OnlyOwnerAggregates | OnlyOwnerUncompleted

  datatype ProofRules = AnyoneSubmits | OnlyOwnerSubmits | OnlyAllowlisted

  /** What a consideration ticket was taken out for, and by whom. */
  datatype Ticket = Ticket(payer: Account, count: nat, size: nat)

  datatype CountableTicket = CountableTicket(ticket: Ticket, count: u32)

  datatype DeliveryParams = DeliveryParams(owner: Account, fee: nat, ownerTip: nat) {
    /** Fee plus tip in 128 bit arithmetic, which wraps around unless overflows are checked. */
    function TotalFee(): nat { (fee + ownerTip) % (U128_MAX + 1) }

    predicate Overflows() { fee + ownerTip > U128_MAX }
  }

  datatype Domain = Domain(
    id: nat,
    owner: User,
    state: DomainState,
    next: AggregationEntry,
    maxAggregationSize: nat,
    shouldPublish: map<nat, AggregationEntry>,
    publishQueueSize: nat,
    ticketDomain: Option<Ticket>,
    ticketAllowlist: Option<CountableTicket>,
    aggregateRules: AggregateRules,
    proofRules: ProofRules,
    delivery: DeliveryParams)
  {
    /** Room in the queue, or the open aggregation can take a statement without completing. */
    predicate CanAddStatement() {
      |shouldPublish| < publishQueueSize || next.SpaceLeft() > 1
    }
  }

  datatype CannotAggregateCause =
    | NoAccount
    | DomainNotRegistered(domainId: nat)
    | DomainStorageFull(domainId: nat)
    | InsufficientFunds
    | InvalidState(domainId: nat, state: DomainState)
    | UnauthorizedUser

  datatype Event =
    | NewDomain(id: nat)
    | DomainStateChanged(id: nat, state: DomainState)
    | NewProof(statement: Digest, domainId: nat, aggregationId: nat)
    | AggregationComplete(domainId: nat, aggregationId: nat)
    | NewAggregationReceipt(domainId: nat, aggregationId: nat, receipt: Digest)
    | CannotAggregate(statement: Digest, cause: CannotAggregateCause)
    | DomainFull(domainId: nat)

  datatype Error =
    | BadOrigin
    | UnknownDomainId
    | InvalidAggregationId
    | InvalidDomainParams
    | InvalidDomainState
    | MissedDeliveryOwnership
    | ConsiderationFailed
    | DispatchFailed

  /** The places where the code panics instead of returning an error. The two overflows only panic
      in builds that check for them. */
  datatype Site = StatementPush | QueueInsert | UndoRelease | FeeDivision | MissingOwner | TipOverflow | FeeOverflow
}
