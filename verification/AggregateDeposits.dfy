/**
 Deposits: the allowlist ticket counts the allowlist, tickets go back to whoever paid for
 them, and the registration deposit covers the largest encoding the domain ever has.
 */
module AggregateDeposits {
  import opened Prelude
  import opened Ledger
  import opened AggregateData
  import opened AggregateEncoding
  import opened AggregateSpec
  import opened AggregateInvariant
  import opened AggregatePreservation

  /* ---------- the allowlist ticket ---------- */

  lemma {:induction false} OneEntryEach(d: nat, es: Allowlist)
    requires forall e :: e in es ==> e.0 == d
    ensures |Submitters(es, d)| == |es|
  {
    if es != {} {
      var e :| e in es;
      OneEntryEach(d, es - {e});
      assert Submitters(es, d) == Submitters(es - {e}, d) + {e.1};
    } else {
      assert Submitters(es, d) == {};
    }
  }

  lemma AddedCount(d: nat, allowlist: Allowlist, added: Allowlist)
    requires (forall e :: e in added ==> e.0 == d) && added !! allowlist
    ensures |Submitters(allowlist + added, d)| == |Submitters(allowlist, d)| + |added|
  {
    OneEntryEach(d, added);
    var old', new' := Submitters(allowlist, d), Submitters(added, d);
    assert Submitters(allowlist + added, d) == old' + new';
    assert forall a :: a in new' ==> (d, a) in added && (d, a) !in allowlist;
    assert old' !! new';
  }

  lemma DroppedCount(d: nat, allowlist: Allowlist, dropped: Allowlist)
    requires (forall e :: e in dropped ==> e.0 == d) && dropped <= allowlist
    ensures |Submitters(allowlist - dropped, d)| == |Submitters(allowlist, d)| - |dropped|
  {
    AddedCount(d, allowlist - dropped, dropped);
    assert allowlist - dropped + dropped == allowlist;
  }

  /** The fields a domain's deposits depend on. */
  ghost predicate SameDeposit(a: Domain, b: Domain) {
    && a.owner == b.owner && a.proofRules == b.proofRules && a.ticketDomain == b.ticketDomain
    && a.maxAggregationSize == b.maxAggregationSize && a.publishQueueSize == b.publishQueueSize
  }

  lemma AppendKeepsDeposit(cfg: Config, dom: Domain, e: StatementEntry)
    ensures AppendStatement(cfg, dom, e).0.Some? ==>
              var after := AppendStatement(cfg, dom, e).0.value.0;
              SameDeposit(dom, after) && after.ticketAllowlist == dom.ticketAllowlist
  {
  }

  lemma TakeKeepsDeposit(dom: Domain, id: nat)
    ensures var taken := TakeAggregation(dom, id).0;
            SameDeposit(dom, taken) && taken.ticketAllowlist == dom.ticketAllowlist
  {
  }

  lemma HoldKeepsDeposit(dom: Domain, allowlist: Allowlist)
    ensures var held := HandleHoldState(dom, allowlist).0;
            SameDeposit(dom, held) && held.ticketAllowlist == dom.ticketAllowlist
  {
  }

  /** Calls that change neither allowlist nor tickets. */
  lemma TicketsUntouched(cfg: Config, s: State, t: State)
    requires TicketsOk(cfg, s) && t.allowlist == s.allowlist
    requires forall d :: d in t.domains ==>
      && d in s.domains && SameDeposit(s.domains[d], t.domains[d])
      && t.domains[d].ticketAllowlist == s.domains[d].ticketAllowlist
    ensures TicketsOk(cfg, t)
  {
    hide ComputeEncodedSize;
  }

  lemma SubmitTickets(cfg: Config, s: State, account: Option<Account>, domain: Option<nat>, statement: Digest, q: Quote)
    requires TicketsOk(cfg, s) && OnProofVerified(cfg, s, account, domain, statement, q).Done?
    ensures TicketsOk(cfg, OnProofVerified(cfg, s, account, domain, statement, q).state)
  {
    hide TicketsOk, AppendStatement, HandleHoldState, ReserveCurrency, MayAddProof;
    var t := OnProofVerified(cfg, s, account, domain, statement, q).state;
    if t.domains != s.domains {
      var d := domain.value;
      var r := ReserveCurrency(s.balances, s.domains[d], account.value, q);
      var e := StatementEntry(account.value, r.reserve, statement);
      AppendKeepsDeposit(cfg, s.domains[d], e);
      HoldKeepsDeposit(AppendStatement(cfg, s.domains[d], e).0.value.0, s.allowlist);
    }
    TicketsUntouched(cfg, s, t);
  }

  lemma PublishTickets(cfg: Config, s: State, origin: Option<User>, d: nat, id: nat, pay: nat -> Payment,
                       dispatched: bool)
    requires TicketsOk(cfg, s) && Publish(cfg, s, origin, d, id, pay, dispatched).Done?
    ensures TicketsOk(cfg, Publish(cfg, s, origin, d, id, pay, dispatched).state)
  {
    hide TicketsOk, TakeAggregation, HandleHoldState, PayFrom, Receipt;
    TakeKeepsDeposit(s.domains[d], id);
    HoldKeepsDeposit(TakeAggregation(s.domains[d], id).0, s.allowlist);
    TicketsUntouched(cfg, s, Publish(cfg, s, origin, d, id, pay, dispatched).state);
  }

  /** Calls that change domain `d`'s allowlist together with its ticket. */
  lemma TicketRecounted(cfg: Config, s: State, t: State, d: nat, count: nat, updated: bool)
    requires TicketsOk(cfg, s) && d in s.domains && SameEntriesElsewhere(d, s.allowlist, t.allowlist)
    requires Recount(s.domains[d], count, updated).Some? && s.domains[d].proofRules == OnlyAllowlisted
    requires s.domains[d].ticketAllowlist.Some? ==> count == |Submitters(t.allowlist, d)|
    requires t.domains.Keys == s.domains.Keys && (forall x :: x in s.domains && x != d ==> t.domains[x] == s.domains[x])
    requires SameDeposit(s.domains[d], t.domains[d])
    requires t.domains[d].ticketAllowlist == Recount(s.domains[d], count, updated).value.ticketAllowlist
    ensures TicketsOk(cfg, t)
  {
    hide ComputeEncodedSize;
    forall x | x in t.domains ensures Ticketed(cfg, x, t.domains[x], t.allowlist) {
      assert Ticketed(cfg, x, s.domains[x], s.allowlist);
      if x != d { OtherSubmitters(d, x, s.allowlist, t.allowlist); }
    }
  }

  lemma CountIs(cfg: Config, s: State, d: nat)
    requires TicketsOk(cfg, s) && d in s.domains && s.domains[d].ticketAllowlist.Some?
    ensures TicketCount(s.domains[d]) == |Submitters(s.allowlist, d)|
  {
    hide ComputeEncodedSize;
    assert Ticketed(cfg, d, s.domains[d], s.allowlist);
  }

  lemma AddedEntries(d: nat, submitters: Batch, allowlist: Allowlist)
    ensures var added := Entries(d, submitters) - allowlist;
            && (forall e :: e in added ==> e.0 == d) && added !! allowlist
            && SameEntriesElsewhere(d, allowlist, allowlist + added)
  {
  }

  lemma AddTickets(cfg: Config, s: State, origin: Option<User>, d: nat, submitters: Batch, updated: bool)
    requires Core(cfg, s) && TicketsOk(cfg, s) && AllowlistSubmitters(s, origin, d, submitters, updated).Done?
    ensures TicketsOk(cfg, AllowlistSubmitters(s, origin, d, submitters, updated).state)
  {
    hide Core, TicketsOk, Shaped, Contiguous, Staged, Submitters, Recount, Entries, SameEntriesElsewhere, SameDeposit;
    LiveDomain(cfg, s, d);
    var added := Entries(d, submitters) - s.allowlist;
    AddedEntries(d, submitters, s.allowlist);
    var count := TicketCount(s.domains[d]) + |added|;
    if s.domains[d].ticketAllowlist.Some? {
      CountIs(cfg, s, d);
      AddedCount(d, s.allowlist, added);
    }
    RecountKeeps(s.domains[d], count, updated);
    TicketRecounted(cfg, s, AllowlistSubmitters(s, origin, d, submitters, updated).state, d, count, updated);
  }

  lemma RecountKeeps(dom: Domain, count: int, updated: bool)
    ensures Recount(dom, count, updated).Some? ==> SameDeposit(dom, Recount(dom, count, updated).value)
  {
  }

  /** Removing submitters never underflows the ticket's counter, and fails only if the new
      price is refused. */
  lemma DropNeverUnderflows(cfg: Config, s: State, d: nat, submitters: Batch)
    requires Core(cfg, s) && TicketsOk(cfg, s) && d in s.domains
    requires s.domains[d].ticketAllowlist.Some?
    ensures |Entries(d, submitters) * s.allowlist| <= TicketCount(s.domains[d])
    ensures TicketCount(s.domains[d]) - |Entries(d, submitters) * s.allowlist|
              == |Submitters(s.allowlist - Entries(d, submitters), d)|
  {
    hide Core, TicketsOk;
    CountIs(cfg, s, d);
    DroppedCount(d, s.allowlist, Entries(d, submitters) * s.allowlist);
    assert s.allowlist - Entries(d, submitters) * s.allowlist == s.allowlist - Entries(d, submitters);
  }

  lemma DropTickets(cfg: Config, s: State, origin: Option<User>, d: nat, submitters: Batch, updated: bool)
    requires Core(cfg, s) && TicketsOk(cfg, s) && RemoveSubmitters(s, origin, d, submitters, updated).Done?
    ensures TicketsOk(cfg, RemoveSubmitters(s, origin, d, submitters, updated).state)
  {
    hide Core, TicketsOk, Shaped, Contiguous, Staged, HandleHoldState;
    LiveDomain(cfg, s, d);
    var dom := s.domains[d];
    var t := RemoveSubmitters(s, origin, d, submitters, updated).state;
    var dropped := Entries(d, submitters) * s.allowlist;
    assert t.allowlist == s.allowlist - Entries(d, submitters);
    if dom.ticketAllowlist.Some? { DropNeverUnderflows(cfg, s, d, submitters); }
    var count := TicketCount(dom) - |dropped|;
    HoldKeepsDeposit(Recount(dom, count, updated).value, t.allowlist);
    if dom.ticketAllowlist.None? {
      TicketRecounted(cfg, s, t, d, 0, updated);
    } else {
      TicketRecounted(cfg, s, t, d, count, updated);
    }
  }

  lemma RegisterTickets(cfg: Config, s: State, c: Call)
    requires Core(cfg, s) && TicketsOk(cfg, s) && c.RegisterDomain? && Apply(cfg, s, c).Done?
    ensures TicketsOk(cfg, Apply(cfg, s, c).state)
  {
    hide Core, ComputeEncodedSize;
    NobodyListed(cfg, s);
  }

  lemma NobodyListed(cfg: Config, s: State)
    requires Core(cfg, s)
    ensures Submitters(s.allowlist, s.nextDomainId) == {}
  {
    hide DomainOk, RemovedOk, ArchiveOk, LogsOk, Receipted;
  }

  /** Every call keeps tickets in line with owners and allowlists. */
  lemma CallKeepsTickets(cfg: Config, s: State, c: Call)
    requires Core(cfg, s) && TicketsOk(cfg, s)
    ensures TicketsOk(cfg, Next(cfg, s, c))
  {
    hide Core, TicketsOk, OnProofVerified, Publish, Register, AllowlistSubmitters, RemoveSubmitters;
    if Apply(cfg, s, c).Done? {
      var t := Apply(cfg, s, c).state;
      match c
      case Submit(account, domain, statement, quote) => SubmitTickets(cfg, s, account, domain, statement, quote);
      case Aggregate(origin, d, id, pay, dispatched) => PublishTickets(cfg, s, origin, d, id, pay, dispatched);
      case RegisterDomain(_, _, _, _, _, _, _, _, _) => RegisterTickets(cfg, s, c);
      case AddSubmitters(origin, d, submitters, updated) => AddTickets(cfg, s, origin, d, submitters, updated);
      case DropSubmitters(origin, d, submitters, updated) => DropTickets(cfg, s, origin, d, submitters, updated);
      case Halt(_, _) => TicketsUntouched(cfg, s, t);
      case UnregisterDomain(_, _) => TicketsUntouched(cfg, s, t);
      case SetFee(_, _, _, _) => TicketsUntouched(cfg, s, t);
      case OnInitialize => TicketsUntouched(cfg, s, t);
      case OtherPallets(_) => TicketsUntouched(cfg, s, t);
    }
  }

  /* ---------- the registration deposit ---------- */

  lemma MulMonotone(a: nat, b: nat, c: nat)
    requires a <= b
    ensures a * c <= b * c
  {
  }

  lemma MulSuccessor(n: nat, c: nat)
    ensures (n + 1) * c == n * c + c
  {
  }

  lemma CompactMonotone(a: nat, b: nat)
    requires a <= b
    ensures CompactLen(a) <= CompactLen(b)
  {
  }

  /** A queue of `queue` aggregations of `size` statements. */
  function QueueBound(l: Layout, size: nat, queue: nat): nat {
    queue * (8 + AggregationBound(l, size)) + CompactLen(l.queueSize)
  }

  lemma BoundsGrow(l: Layout, size: nat, queue: nat)
    requires size <= l.aggregationSize && queue <= l.queueSize
    ensures AggregationBound(l, size) <= AggregationBound(l, l.aggregationSize)
    ensures QueueBound(l, size, queue) <= QueueBound(l, l.aggregationSize, l.queueSize)
    ensures l.queueSize >= 1 ==>
              8 + AggregationBound(l, l.aggregationSize) <= QueueBound(l, l.aggregationSize, l.queueSize)
  {
    hide CompactLen, StatementLen;
    MulMonotone(size, l.aggregationSize, StatementLen(l));
    var a, b := 8 + AggregationBound(l, size), 8 + AggregationBound(l, l.aggregationSize);
    MulMonotone(queue, l.queueSize, a);
    MulMonotone(a, b, l.queueSize);
    if l.queueSize >= 1 { MulMonotone(1, l.queueSize, b); }
  }

  /** The parts of the computation that do not saturate as long as the largest queue does not. */
  lemma PartsUnsaturated(l: Layout, size: nat, queue: nat)
    requires size <= l.aggregationSize && queue <= l.queueSize && l.queueSize >= 1
    requires QueueBound(l, l.aggregationSize, l.queueSize) <= USIZE_MAX
    ensures MaxAggregationLen(l) == AggregationBound(l, l.aggregationSize)
    ensures MaxQueueLen(l) == QueueBound(l, l.aggregationSize, l.queueSize)
    ensures ComputeAggregationSize(l, size) == AggregationBound(l, size)
    ensures SatAdd(SatMul(queue, SatAdd(8, AggregationBound(l, size))), CompactLen(l.queueSize))
              == QueueBound(l, size, queue)
  {
    hide CompactLen, StatementLen;
    BoundsGrow(l, size, queue);
  }

  /** The sum of the three parts after the other two were taken off the maximum. */
  lemma Resum(base: nat, bigA: nat, bigQ: nat, a: nat, q: nat)
    requires a <= bigA && q <= bigQ <= USIZE_MAX && bigA <= USIZE_MAX && base >= 1
    ensures var top := SatAdd(SatAdd(base, bigA), bigQ);
            var rest := SatSub(SatSub(SatSub(top, bigA), bigQ), 1);
            var sum := SatAdd(SatAdd(SatAdd(rest, 1), a), q);
            && (base + bigA + bigQ <= USIZE_MAX ==> sum == base + a + q)
            && (base + bigA + bigQ > USIZE_MAX ==> sum == USIZE_MAX || sum + bigA + bigQ >= USIZE_MAX + a + q)
            && (a == bigA && q == bigQ ==> sum == top)
  {
  }

  /** The size the deposit is for is the sum of the three bounds, less what the maximum exceeds the
      machine size by. */
  lemma DepositAtLeast(l: Layout, size: nat, queue: nat)
    requires size <= l.aggregationSize && queue <= l.queueSize && l.queueSize >= 1
    requires QueueBound(l, l.aggregationSize, l.queueSize) <= USIZE_MAX
    ensures var top := BaseLen(l) + AggregationBound(l, l.aggregationSize)
              + QueueBound(l, l.aggregationSize, l.queueSize);
            var sum := BaseLen(l) + AggregationBound(l, size) + QueueBound(l, size, queue);
            && (top <= USIZE_MAX ==> ComputeEncodedSize(l, size, queue) == sum)
            && (top > USIZE_MAX ==>
                  || ComputeEncodedSize(l, size, queue) == USIZE_MAX
                  || ComputeEncodedSize(l, size, queue) + top >= sum + USIZE_MAX)
  {
    hide CompactLen, StatementLen, QueueBound, AggregationBound, SatAdd, SatSub, SatMul;
    BoundsGrow(l, size, queue);
    PartsUnsaturated(l, size, queue);
    Resum(BaseLen(l), AggregationBound(l, l.aggregationSize), QueueBound(l, l.aggregationSize, l.queueSize),
          AggregationBound(l, size), QueueBound(l, size, queue));
  }

  lemma {:induction false} QueueFits(l: Layout, q: map<nat, AggregationEntry>, bound: nat)
    requires forall id :: id in q ==> 8 + AggregationLen(l, q[id]) <= bound
    ensures QueueEntriesLen(l, q) <= |q| * bound
    decreases |q|
  {
    hide AggregationLen;
    if q != map[] {
      var k :| k in q && QueueEntriesLen(l, q) == 8 + AggregationLen(l, q[k]) + QueueEntriesLen(l, q - {k});
      var rest := q - {k};
      assert rest.Keys == q.Keys - {k};
      QueueFits(l, rest, bound);
      assert |rest| == |q| - 1;
      MulSuccessor(|rest|, bound);
    }
  }

  lemma AggregationFits(l: Layout, a: AggregationEntry, size: nat)
    requires |a.statements| <= size <= l.aggregationSize
    ensures AggregationLen(l, a) <= AggregationBound(l, size)
    ensures AggregationLen(l, a) <= 12 + CompactLen(size) + size * StatementLen(l)
  {
    hide CompactLen, StatementLen;
    MulMonotone(|a.statements|, size, StatementLen(l));
    CompactMonotone(|a.statements|, size);
    CompactMonotone(size, l.aggregationSize);
  }

  /** The open aggregation lacks at least one statement. */
  lemma OpenFits(l: Layout, a: AggregationEntry, size: nat)
    requires |a.statements| < size <= l.aggregationSize
    ensures var slack := StatementLen(l) + CompactLen(l.aggregationSize) - CompactLen(l.aggregationSize - 1);
            AggregationLen(l, a) + slack <= AggregationBound(l, size)
  {
    hide CompactLen, StatementLen;
    AggregationFits(l, a, size - 1);
    CompactMonotone(size - 1, l.aggregationSize - 1);
    MulSuccessor(size - 1, StatementLen(l));
  }

  lemma QueueFitsBound(cfg: Config, dom: Domain)
    requires Shaped(cfg, dom)
    ensures CompactLen(|dom.shouldPublish|) + QueueEntriesLen(cfg.layout, dom.shouldPublish)
              <= QueueBound(cfg.layout, dom.maxAggregationSize, dom.publishQueueSize)
  {
    hide AggregationLen, AggregationBound, CompactLen;
    var l, size, queue := cfg.layout, dom.maxAggregationSize, dom.publishQueueSize;
    var a := 8 + AggregationBound(l, size);
    forall id | id in dom.shouldPublish ensures 8 + AggregationLen(l, dom.shouldPublish[id]) <= a {
      AggregationFits(l, dom.shouldPublish[id], size);
    }
    QueueFits(l, dom.shouldPublish, a);
    MulMonotone(|dom.shouldPublish|, queue, a);
    CompactMonotone(|dom.shouldPublish|, l.queueSize);
  }

  lemma LargestIs(l: Layout)
    requires l.aggregationSize >= 1
    ensures var slack := StatementLen(l) + CompactLen(l.aggregationSize) - CompactLen(l.aggregationSize - 1);
            LargestLen(l) + slack == BaseLen(l) + AggregationBound(l, l.aggregationSize)
              + QueueBound(l, l.aggregationSize, l.queueSize)
  {
    hide CompactLen, StatementLen, BaseLen;
    MulSuccessor(l.aggregationSize - 1, StatementLen(l));
  }

  lemma EncodedParts(l: Layout, dom: Domain)
    ensures EncodedLen(l, dom) <= BaseLen(l) + AggregationLen(l, dom.next)
              + (CompactLen(|dom.shouldPublish|) + QueueEntriesLen(l, dom.shouldPublish))
  {
    hide AggregationLen, CompactLen, QueueEntriesLen;
  }

  /** The deposit taken at registration covers the encoding of the domain whatever it holds. */
  lemma DepositCovers(cfg: Config, dom: Domain)
    requires Addressable(cfg.layout) && Shaped(cfg, dom)
    ensures EncodedLen(cfg.layout, dom) <= ComputeEncodedSize(cfg.layout, dom.maxAggregationSize, dom.publishQueueSize)
  {
    hide ComputeEncodedSize, LargestLen, EncodedLen, QueueBound, AggregationBound, AggregationLen, CompactLen,
         StatementLen, QueueEntriesLen, BaseLen;
    var l, size, queue := cfg.layout, dom.maxAggregationSize, dom.publishQueueSize;
    EncodedParts(l, dom);
    OpenFits(l, dom.next, size);
    QueueFitsBound(cfg, dom);
    LargestIs(l);
    BoundsGrow(l, size, queue);
    SlackPositive(l);
    DepositAtLeast(l, size, queue);
  }

  lemma SlackPositive(l: Layout)
    requires l.aggregationSize >= 1
    ensures CompactLen(l.aggregationSize - 1) <= CompactLen(l.aggregationSize)
    ensures AggregationBound(l, l.aggregationSize) >= StatementLen(l) + CompactLen(l.aggregationSize)
  {
    CompactMonotone(l.aggregationSize - 1, l.aggregationSize);
    MulMonotone(1, l.aggregationSize, StatementLen(l));
  }

  /** At the runtime's maximal sizes the deposit is for exactly the maximal encoded length, saturated
      or not. */
  lemma DepositAtMaximum(l: Layout)
    ensures ComputeEncodedSize(l, l.aggregationSize, l.queueSize) == MaxEncodedLen(l)
  {
    hide CompactLen, StatementLen;
    assert ComputeAggregationSize(l, l.aggregationSize) == MaxAggregationLen(l);
    Resum(BaseLen(l), MaxAggregationLen(l), MaxQueueLen(l), MaxAggregationLen(l), MaxQueueLen(l));
  }

  /* ---------- exact lengths ---------- */

  lemma {:induction false} QueueLenIs(l: Layout, q: map<nat, AggregationEntry>, each: nat)
    requires forall id :: id in q ==> 8 + AggregationLen(l, q[id]) == each
    ensures QueueEntriesLen(l, q) == |q| * each
    decreases |q|
  {
    hide AggregationLen;
    if q != map[] {
      var k :| k in q && QueueEntriesLen(l, q) == 8 + AggregationLen(l, q[k]) + QueueEntriesLen(l, q - {k});
      var rest := q - {k};
      assert rest.Keys == q.Keys - {k};
      QueueLenIs(l, rest, each);
      assert |rest| == |q| - 1;
      MulSuccessor(|rest|, each);
    }
  }

  lemma NeverAboveMaximum(l: Layout, size: nat, queue: nat)
    ensures ComputeEncodedSize(l, size, queue) <= USIZE_MAX
  {
    hide ComputeAggregationSize, MaxEncodedLen, MaxAggregationLen, MaxQueueLen, SatMul;
  }

  /** An anchor for the lengths above: the sizes the repository's tests fix for their configuration. */
  lemma DepositFixtures()
    ensures var l := Layout(8, 24, 24, 64, 16);
            && MaxEncodedLen(l) == 78822 && ComputeEncodedSize(l, 64, 16) == 78822
            && ComputeEncodedSize(l, 1, 16) == 1710 && ComputeEncodedSize(l, 64, 1) == 9372
            && ComputeEncodedSize(l, 32, 8) == 21046
  {
  }
}
