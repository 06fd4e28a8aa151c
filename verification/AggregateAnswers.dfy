/**
 The answer of every managing call in every reachable state: exactly when it succeeds, exactly
 which error it returns otherwise, and all that it changes. Submissions are in
 `AggregateSubmissions`; who is paid on publication is in `AggregatePayments`.
 */
module AggregateAnswers {
  import opened Prelude
  import opened Ledger
  import opened Merkle
  import opened AggregateData
  import opened AggregateEncoding
  import opened AggregateSpec
  import opened AggregateInvariant
  import opened AggregateRights
  import opened AggregatePreservation
  import opened AggregateFunds
  import opened AggregateDeposits
  import opened AggregateTheorems
  import opened AggregatePaths
  import opened AggregateSafety
  import opened AggregateSubmissions

  /* ---------- registering ---------- */

  /** The queue size asked for, or the runtime's limit. */
  function QueueAsked(cfg: Config, c: Call): nat
    requires c.RegisterDomain?
  {
    if c.queueSize.Some? then c.queueSize.value else cfg.layout.queueSize
  }

  predicate SizesFit(cfg: Config, c: Call)
    requires c.RegisterDomain?
  {
    1 <= c.size <= cfg.layout.aggregationSize && 1 <= QueueAsked(cfg, c) <= cfg.layout.queueSize
  }

  /** Accounts pay for the domain and, if it has one, for its allowlist; the manager does not. */
  predicate Paid(c: Call)
    requires c.RegisterDomain?
  {
    c.origin == Some(Manager) || (c.deposits.domain && (c.proofRules == OnlyAllowlisted ==> c.deposits.allowlist))
  }

  /** There is somebody to pay delivery to: the named account, or the calling one. */
  predicate HasPayee(c: Call)
    requires c.RegisterDomain? && c.origin.Some?
  {
    c.deliveryOwner.Some? || c.origin.value.Signer?
  }

  /** A new, open and empty domain as it was asked for. */
  ghost predicate AsAskedFor(cfg: Config, c: Call, id: nat, dom: Domain)
    requires c.RegisterDomain? && c.origin.Some? && HasPayee(c)
  {
    && dom.id == id && dom.owner == c.origin.value && dom.state == Ready
    && dom.aggregateRules == c.aggregateRules && dom.proofRules == c.proofRules
    && dom.maxAggregationSize == c.size && dom.publishQueueSize == QueueAsked(cfg, c)
    && dom.next.id == 1 && dom.next.size == c.size && dom.next.statements == [] && dom.shouldPublish == map[]
    && dom.delivery.owner == (if c.deliveryOwner.Some? then c.deliveryOwner.value else c.origin.value.id)
    && dom.delivery.fee == c.fee && dom.delivery.ownerTip == c.ownerTip
    && (dom.ticketDomain.Some? <==> c.origin.value.Signer?)
    && (dom.ticketAllowlist.Some? <==> c.origin.value.Signer? && c.proofRules == OnlyAllowlisted)
    && (dom.ticketDomain.Some? ==> dom.ticketDomain.value.payer == c.origin.value.id)
    && (dom.ticketAllowlist.Some? ==>
          dom.ticketAllowlist.value.ticket.payer == c.origin.value.id && dom.ticketAllowlist.value.count == 0)
  }

  lemma RegisterAnswer(cfg: Config, free: multiset<Account>, calls: seq<Call>, c: Call, s: State)
    requires c.RegisterDomain? && s == After(cfg, free, calls)
    ensures var answer, id := Apply(cfg, s, c), s.nextDomainId;
            && (answer == Failed(BadOrigin) <==> c.origin.None?)
            && (answer == Failed(MissedDeliveryOwnership) <==> c.origin.Some? && !HasPayee(c))
            && (answer == Failed(ConsiderationFailed) <==>
                  c.origin.Some? && HasPayee(c) && id < 0xFFFF_FFFF && !Paid(c))
            && (answer == Failed(InvalidDomainParams) <==>
                  c.origin.Some? && HasPayee(c) && (id == 0xFFFF_FFFF || (Paid(c) && !SizesFit(cfg, c))))
            && (answer.Done? <==>
                  c.origin.Some? && HasPayee(c) && id < 0xFFFF_FFFF && Paid(c) && SizesFit(cfg, c))
            && (answer.Done? ==>
                  && id !in s.domains && id in answer.state.domains
                  && AsAskedFor(cfg, c, id, answer.state.domains[id])
                  && answer.state == s.(domains := s.domains[id := answer.state.domains[id]], nextDomainId := id + 1,
                                        events := s.events + [NewDomain(id)]))
  {
    hide After, Core, TicketsOk, Covered, ComputeEncodedSize;
    Reachable(cfg, free, calls);
    NextIdFits(cfg, s);
    FreshId(cfg, s);
  }

  lemma FreshId(cfg: Config, s: State)
    requires Core(cfg, s)
    ensures s.nextDomainId !in s.domains
  {
    hide DomainOk, RemovedOk, LogsOk, Receipted, ArchiveOk;
  }

  /* ---------- the life of a domain ---------- */

  /** Hold or Removable, by what waits in the domain. */
  ghost function Held(dom: Domain, allowlist: Allowlist): DomainState {
    if Idle(dom, allowlist) then Removable else Hold
  }

  lemma HaltAnswer(cfg: Config, free: multiset<Account>, calls: seq<Call>, origin: Option<User>, d: nat, s: State)
    requires s == After(cfg, free, calls)
    ensures var answer := Apply(cfg, s, Halt(origin, d));
            && (answer == Failed(UnknownDomainId) <==> origin.Some? && d !in s.domains)
            && (answer == Failed(BadOrigin) <==> origin.None? || (d in s.domains && !Owns(origin.value, s.domains[d])))
            && (origin.Some? && d in s.domains && Owns(origin.value, s.domains[d]) ==>
                  var dom := s.domains[d];
                  answer == if dom.state != Ready then Failed(InvalidDomainState)
                            else Done(s.(domains := s.domains[d := dom.(state := Held(dom, s.allowlist))],
                                         events := s.events + [DomainStateChanged(d, Held(dom, s.allowlist))])))
  {
    hide After, Core, TicketsOk, Covered, Shaped, Contiguous, Drained, Idle, Submitters;
    Reachable(cfg, free, calls);
    if d in s.domains {
      LiveDomain(cfg, s, d);
      IdleAgrees(s.domains[d], s.allowlist);
    }
  }

  lemma UnregisterAnswer(cfg: Config, free: multiset<Account>, calls: seq<Call>, origin: Option<User>, d: nat, s: State)
    requires s == After(cfg, free, calls)
    ensures var answer := Apply(cfg, s, UnregisterDomain(origin, d));
            && (answer == Failed(UnknownDomainId) <==> origin.Some? && d !in s.domains)
            && (answer == Failed(BadOrigin) <==> origin.None? || (d in s.domains && !Owns(origin.value, s.domains[d])))
            && (origin.Some? && d in s.domains && Owns(origin.value, s.domains[d]) ==>
                  && (answer == Failed(InvalidDomainState) <==> s.domains[d].state != Removable)
                  && (answer.Done? <==> s.domains[d].state == Removable))
            && (answer.Done? ==>
                  var tickets := TicketsIn(s.domains[d]);
                  && answer.state == s.(domains := s.domains - {d}, removed := answer.state.removed,
                                        refunds := answer.state.refunds,
                                        events := s.events + [DomainStateChanged(d, Removed)])
                  && answer.state.removed.Keys == s.removed.Keys + {d}
                  && answer.state.refunds
                     == s.refunds + seq(|tickets|, i requires 0 <= i < |tickets| => (tickets[i], tickets[i].payer)))
  {
    hide After, Core, TicketsOk, Covered, TicketsIn, RefundTo, GiveBack, Countless;
    Reachable(cfg, free, calls);
    var c := UnregisterDomain(origin, d);
    if Apply(cfg, s, c).Done? { UnregisterRepays(cfg, s, c, Apply(cfg, s, c).state); }
  }

  /* ---------- fees ---------- */

  lemma SetFeeAnswer(cfg: Config, free: multiset<Account>, calls: seq<Call>, origin: Option<User>, d: nat, fee: nat,
                     ownerTip: nat, s: State)
    requires s == After(cfg, free, calls)
    ensures var answer := Apply(cfg, s, SetFee(origin, d, fee, ownerTip));
            && (answer == Failed(UnknownDomainId) <==> origin.Some? && d !in s.domains)
            && (origin.None? ==> answer == Failed(BadOrigin))
            && (origin.Some? && d in s.domains ==>
                  var dom := s.domains[d];
                  var after := dom.(delivery := DeliveryParams(dom.delivery.owner, fee, ownerTip));
                  answer == if Owns(origin.value, dom) || origin == Some(Signer(dom.delivery.owner))
                            then Done(s.(domains := s.domains[d := after]))
                            else Failed(BadOrigin))
  {
  }

  /** The new fee is what the next statement pays its share of. */
  lemma FeeTakesEffect(cfg: Config, free: multiset<Account>, calls: seq<Call>, origin: Option<User>, d: nat, fee: nat,
                       ownerTip: nat, c: Call, s: State, t: State)
    requires var change := SetFee(origin, d, fee, ownerTip);
             && Apply(cfg, After(cfg, free, calls), change).Done? && s == After(cfg, free, calls + [change])
    requires fee + ownerTip < 0x1_0000_0000_0000_0000_0000_0000_0000_0000
    requires c.Submit? && c.domain == Some(d) && Apply(cfg, s, c) == Done(t) && TakenIn(s, c, t)
    ensures var who, size := c.account.value, s.domains[d].maxAggregationSize;
            && size >= 1
            && t.balances.held[(who, Delivery)] == s.balances.held[(who, Delivery)] + (fee + ownerTip) / size
  {
    hide After, Core, TicketsOk, Covered, Apply, Pending, NewProofs, DomainWith, EventsWith, PublishShare;
    var before, change := After(cfg, free, calls), SetFee(origin, d, fee, ownerTip);
    AfterConcat(cfg, free, calls, [change]);
    RunOne(cfg, before, change);
    SetFeeAnswer(cfg, free, calls, origin, d, fee, ownerTip, before);
    assert d in before.domains;
    assert s.domains[d].delivery == DeliveryParams(before.domains[d].delivery.owner, fee, ownerTip);
    assert Units(EntryOf(c, s.domains[d]))[(c.account.value, Delivery)] == DeliveryShare(s.domains[d]);
  }

  /* ---------- the allowlist ---------- */

  /** The record with its allowlist ticket counting `n` submitters, if its owner is an account. */
  function Counting(dom: Domain, n: u32): Domain {
    if dom.owner.Signer? then dom.(ticketAllowlist := Some(CountableTicket(Ticket(dom.owner.id, n, 0), n))) else dom
  }

  /** The allowlist entries a batch names, repeated accounts once. */
  ghost function Pairs(d: nat, submitters: Batch): Allowlist { set a | a in submitters :: (d, a) }

  lemma AllowlistAnswer(cfg: Config, free: multiset<Account>, calls: seq<Call>, origin: Option<User>, d: nat,
                        submitters: Batch, updated: bool, s: State)
    requires s == After(cfg, free, calls)
    ensures var answer := Apply(cfg, s, AddSubmitters(origin, d, submitters, updated));
            && (answer == Failed(UnknownDomainId) <==> origin.Some? && d !in s.domains)
            && (answer == Failed(BadOrigin) <==> origin.None? || (d in s.domains && !Owns(origin.value, s.domains[d])))
            && (origin.Some? && d in s.domains && Owns(origin.value, s.domains[d]) ==>
                  var dom := s.domains[d];
                  var all := s.allowlist + Pairs(d, submitters);
                  var n := |Submitters(all, d)|;
                  if dom.state != Ready || dom.proofRules != OnlyAllowlisted || (dom.owner.Signer? && n > 0xFFFF_FFFF)
                  then answer == Failed(InvalidDomainParams)
                  else if dom.owner.Signer? && !updated then answer == Failed(ConsiderationFailed)
                  else
                    var after := if dom.owner.Signer? then Counting(dom, n) else dom;
                    answer == Done(s.(allowlist := all, domains := s.domains[d := after])))
  {
    hide After, Core, TicketsOk, Covered, ComputeEncodedSize, Submitters, Shaped, Contiguous, Staged, Entries,
         SameEntriesElsewhere, Pairs;
    Reachable(cfg, free, calls);
    if d in s.domains {
      TicketsOf(cfg, s, d);
      var added := Entries(d, submitters) - s.allowlist;
      AddedEntries(d, submitters, s.allowlist);
      AddedCount(d, s.allowlist, added);
      AllListed(d, submitters, s.allowlist);
    }
  }

  lemma AllListed(d: nat, submitters: Batch, allowlist: Allowlist)
    ensures allowlist + (Entries(d, submitters) - allowlist) == allowlist + Pairs(d, submitters)
    ensures allowlist - Entries(d, submitters) * allowlist == allowlist - Pairs(d, submitters)
  {
  }

  lemma EntriesTagged(d: nat, submitters: Batch)
    ensures forall e :: e in Entries(d, submitters) ==> e.0 == d
  {
  }

  lemma RemoveAnswer(cfg: Config, free: multiset<Account>, calls: seq<Call>, origin: Option<User>, d: nat,
                     submitters: Batch, updated: bool, s: State)
    requires s == After(cfg, free, calls)
    ensures var answer := Apply(cfg, s, DropSubmitters(origin, d, submitters, updated));
            && (answer == Failed(UnknownDomainId) <==> origin.Some? && d !in s.domains)
            && (answer == Failed(BadOrigin) <==> origin.None? || (d in s.domains && !Owns(origin.value, s.domains[d])))
            && (origin.Some? && d in s.domains && Owns(origin.value, s.domains[d]) ==>
                  var dom := s.domains[d];
                  var rest := s.allowlist - Pairs(d, submitters);
                  var n := |Submitters(rest, d)|;
                  var state := if dom.state == Ready then Ready else Held(dom, rest);
                  if dom.proofRules != OnlyAllowlisted then answer == Failed(InvalidDomainParams)
                  else if dom.owner.Signer? && !updated then answer == Failed(ConsiderationFailed)
                  else
                    && (dom.owner.Signer? ==> n <= 0xFFFF_FFFF)
                    && var after := if dom.owner.Signer? then Counting(dom, n) else dom;
                       answer == Done(s.(allowlist := rest, domains := s.domains[d := after.(state := state)],
                                         events := s.events + Change(d, dom.state, state))))
  {
    hide After, Core, TicketsOk, Covered, ComputeEncodedSize, Submitters, Shaped, Contiguous, Staged, Entries,
         HandleHoldState, Held, Recount, TicketCount, Pairs;
    Reachable(cfg, free, calls);
    if d in s.domains {
      TicketsOf(cfg, s, d);
      LiveState(cfg, s, d);
      var dom, dropped := s.domains[d], Entries(d, submitters) * s.allowlist;
      var n := |Submitters(s.allowlist - dropped, d)|;
      EntriesTagged(d, submitters);
      DroppedCount(d, s.allowlist, dropped);
      AllListed(d, submitters, s.allowlist);
      if dom.proofRules == OnlyAllowlisted {
        RecountIs(cfg, d, dom, s.allowlist, TicketCount(dom) - |dropped|, updated);
        HandleIs(if dom.owner.Signer? && n <= U32_MAX then Counting(dom, n) else dom, dom, s.allowlist - dropped);
      }
    }
  }

  /** Recounting an allowlist domain: accounts' tickets take the new count if it fits and is granted. */
  lemma RecountIs(cfg: Config, d: nat, dom: Domain, allowlist: Allowlist, count: int, updated: bool)
    requires Ticketed(cfg, d, dom, allowlist) && dom.proofRules == OnlyAllowlisted
    ensures dom.owner.Signer? ==> TicketCount(dom) == |Submitters(allowlist, d)|
    ensures dom.owner.Signer? && updated && 0 <= count <= U32_MAX ==>
              Recount(dom, count, updated) == Some(Counting(dom, count))
    ensures dom.owner.Signer? && !(updated && 0 <= count <= U32_MAX) ==> Recount(dom, count, updated) == None
    ensures dom.owner.Manager? ==> Recount(dom, count, updated) == Some(dom)
  {
    hide ComputeEncodedSize, Submitters;
  }

  /** The event of a change of state. */
  function Change(d: nat, before: DomainState, after: DomainState): seq<Event> {
    if before == after then [] else [DomainStateChanged(d, after)]
  }

  lemma LiveState(cfg: Config, s: State, d: nat)
    requires Core(cfg, s) && d in s.domains
    ensures s.domains[d].state != Removed
  {
    hide Core, Shaped, Contiguous;
    LiveDomain(cfg, s, d);
  }

  lemma HandleIs(dom: Domain, before: Domain, allowlist: Allowlist)
    requires dom == before.(ticketAllowlist := dom.ticketAllowlist)
    requires dom.proofRules != OnlyAllowlisted ==> Submitters(allowlist, dom.id) == {}
    ensures var state := if dom.state == Ready then Ready else Held(before, allowlist);
            HandleHoldState(dom, allowlist) == (dom.(state := state), Change(dom.id, dom.state, state))
  {
    IdleAgrees(dom, allowlist);
  }

  /* ---------- publishing ---------- */

  /** The last id of 64 bits. */
  const LAST: nat := 0xFFFF_FFFF_FFFF_FFFF

  /** The record without the aggregation waiting under `id`; an open one is succeeded by an empty one. */
  function TakenFrom(dom: Domain, id: nat): Domain {
    if id in dom.shouldPublish then dom.(shouldPublish := dom.shouldPublish - {id})
    else dom.(next := AggregationEntry(if id == LAST then 0 else id + 1, dom.maxAggregationSize, []))
  }

  /** The open aggregation with the last id is taken. */
  predicate Exhausts(dom: Domain, id: nat) { id !in dom.shouldPublish && id == LAST }

  ghost function StateWithout(dom: Domain, id: nat, allowlist: Allowlist): DomainState {
    if dom.state == Ready && !Exhausts(dom, id) then Ready else Held(TakenFrom(dom, id), allowlist)
  }

  ghost function EventsWithout(d: nat, dom: Domain, id: nat, allowlist: Allowlist): seq<Event> {
    (if Exhausts(dom, id) then [DomainStateChanged(d, Hold)] else [])
    + (if StateWithout(dom, id, allowlist) == Removable then [DomainStateChanged(d, Removable)] else [])
  }

  function Leaves(a: AggregationEntry): seq<Bytes> {
    seq(|a.statements|, i requires 0 <= i < |a.statements| => a.statements[i].statement)
  }

  lemma TakeIs(cfg: Config, d: nat, dom: Domain, archive: Archive, id: nat)
    requires Shaped(cfg, dom) && Contiguous(d, dom.shouldPublish, archive, Frontier(dom)) && dom.id == d
    ensures var (taken, es, found) := TakeAggregation(dom, id);
            && (found.Some? <==> Waits(dom, id))
            && (found.Some? ==>
                  && found.value == Waiting(dom, id)
                  && taken == TakenFrom(dom, id).(state := if Exhausts(dom, id) then Hold else dom.state)
                  && es == if Exhausts(dom, id) then [DomainStateChanged(d, Hold)] else [])
  {
  }

  lemma TakenStage(cfg: Config, d: nat, dom: Domain, allowlist: Allowlist, id: nat)
    requires dom.id == d && Staged(dom, allowlist) && Waits(dom, id)
    ensures var taken := TakenFrom(dom, id).(state := if Exhausts(dom, id) then Hold else dom.state);
            var (held, hs) := HandleHoldState(taken, allowlist);
            && held == TakenFrom(dom, id).(state := StateWithout(dom, id, allowlist))
            && (if Exhausts(dom, id) then [DomainStateChanged(d, Hold)] else []) + hs
               == EventsWithout(d, dom, id, allowlist)
  {
    hide Drained, Idle, Submitters;
    var taken := TakenFrom(dom, id).(state := if Exhausts(dom, id) then Hold else dom.state);
    IdleAgrees(taken, allowlist);
    SameIdle(taken, TakenFrom(dom, id), allowlist);
    IdleAgrees(dom, allowlist);
    NotIdle(dom, allowlist, id);
  }

  lemma SameIdle(a: Domain, b: Domain, allowlist: Allowlist)
    requires a == b.(state := a.state)
    ensures Idle(a, allowlist) <==> Idle(b, allowlist)
  {
  }

  lemma NotIdle(dom: Domain, allowlist: Allowlist, id: nat)
    requires Waits(dom, id)
    ensures !Idle(dom, allowlist)
  {
  }

  lemma PublishAnswer(cfg: Config, free: multiset<Account>, calls: seq<Call>, c: Call, s: State)
    requires c.Aggregate? && s == After(cfg, free, calls)
    ensures var answer, d, id := Apply(cfg, s, c), c.domainId, c.aggregationId;
            && (answer == Failed(UnknownDomainId) <==> c.origin.Some? && d !in s.domains)
            && (c.origin.None? ==> answer == Failed(BadOrigin))
            && (c.origin.Some? && d in s.domains ==>
                  var dom := s.domains[d];
                  if !Waits(dom, id) then answer == Failed(InvalidAggregationId)
                  else if !MayPublish(dom, c.origin.value, Waiting(dom, id)) then answer == Failed(BadOrigin)
                  else if !c.dispatched then answer == Failed(DispatchFailed)
                  else
                    var a := Waiting(dom, id);
                    var after := TakenFrom(dom, id).(state := StateWithout(dom, id, s.allowlist));
                    && answer.Done?
                    && answer.state
                       == s.(domains := s.domains[d := after],
                             balances := answer.state.balances,
                             published := s.published + [(d, a)],
                             archive := s.archive[(d, id) := a],
                             events := s.events + EventsWithout(d, dom, id, s.allowlist)
                                       + [NewAggregationReceipt(d, id, MerkleRoot(cfg.hash, Leaves(a)))]))
  {
    hide After, Core, TicketsOk, Covered, Shaped, Contiguous, Staged, TakeAggregation, HandleHoldState, PayFrom,
         MayAggregate,
         MayPublish, MerkleRoot, TakenFrom, StateWithout, EventsWithout, Exhausts;
    Reachable(cfg, free, calls);
    var d, id := c.domainId, c.aggregationId;
    if c.origin.Some? && d in s.domains {
      var dom := s.domains[d];
      LiveDomain(cfg, s, d);
      TakeIs(cfg, d, dom, s.archive, id);
      if Waits(dom, id) {
        PublishAgrees(cfg, dom, c.origin.value, id);
        TakenRules(dom, id, c.origin.value);
        TakenStage(cfg, d, dom, s.allowlist, id);
        assert Statements(Waiting(dom, id)) == Leaves(Waiting(dom, id));
        var (taken, es, _) := TakeAggregation(dom, id);
        var hs := HandleHoldState(taken, s.allowlist).1;
        var last := NewAggregationReceipt(d, id, Receipt(cfg, Waiting(dom, id)));
        assert s.events + (es + hs + [last]) == s.events + (es + hs) + [last];
      } else {
        assert TakeAggregation(dom, id).2 == None;
      }
    }
  }

  lemma TakenRules(dom: Domain, id: nat, who: User)
    ensures var taken := TakenFrom(dom, id).(state := if Exhausts(dom, id) then Hold else dom.state);
            MayAggregate(taken, who, Waiting(dom, id)) <==> MayAggregate(dom, who, Waiting(dom, id))
  {
  }

  /* ---------- a new block ---------- */

  /** The published list is emptied, so no path is answered any more; nothing else changes. */
  lemma NewBlockAnswer(cfg: Config, free: multiset<Account>, calls: seq<Call>, d: nat, id: nat, statement: Digest,
                       s: State)
    requires s == After(cfg, free, calls)
    ensures var t := Next(cfg, s, OnInitialize);
            && t == s.(published := t.published)
            && GetStatementPath(cfg, t.published, d, id, statement) == ReceiptNotPublished
  {
  }
}
