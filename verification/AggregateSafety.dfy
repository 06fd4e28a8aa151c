/** Over every run: capacities and panics, what an aggregation collects, and deposits and their refunds. */
module AggregateSafety {
  import opened Prelude
  import opened Ledger
  import opened AggregateData
  import opened AggregateEncoding
  import opened AggregateSpec
  import opened AggregateInvariant
  import opened AggregateRights
  import opened AggregatePreservation
  import opened AggregateFunds
  import opened AggregateDeposits
  import opened AggregateTheorems
  import opened AggregatePaths
  import opened AggregatePayments

  /* ---------- capacities and panics ---------- */

  /** A submission to an open domain that only its owner may use but that a manager registered. */
  predicate OwnerlessSubmission(s: State, c: Call) {
    && c.Submit? && c.account.Some? && c.domain.Some? && c.domain.value in s.domains
    && var dom := s.domains[c.domain.value];
       dom.state == Ready && HasRoom(dom) && dom.proofRules == OnlyOwnerSubmits && dom.owner == Manager
  }

  /** An authorized submission whose fees overflow 128 bits, in a build that checks. */
  predicate OverflowingSubmission(cfg: Config, s: State, c: Call) {
    && cfg.checked && c.Submit? && c.account.Some? && c.domain.Some? && c.domain.value in s.domains
    && var dom := s.domains[c.domain.value];
       && dom.state == Ready && HasRoom(dom) && Permitted(dom, s.allowlist, c.account.value)
       && (SumOf(c.quote) > U128_MAX || dom.delivery.fee + dom.delivery.ownerTip > U128_MAX)
  }

  /** Estimate plus tip. */
  function SumOf(q: Quote): nat {
    q.estimated + if q.tip.Some? then q.tip.value else 0
  }

  /** Which site a submission panics at. */
  function SubmissionSite(s: State, c: Call): Site
    requires c.Submit?
  {
    if OwnerlessSubmission(s, c) then MissingOwner else if SumOf(c.quote) > U128_MAX then TipOverflow else FeeOverflow
  }

  /** A domain that can take a statement has room for it, and for the aggregation it may complete. */
  lemma RoomFor(cfg: Config, s: State, d: nat)
    requires Inv(cfg, s) && d in s.domains && s.domains[d].state == Ready && s.domains[d].CanAddStatement()
    ensures var dom := s.domains[d];
            && 1 <= dom.next.size && |dom.next.statements| < cfg.layout.aggregationSize
            && (dom.next.size <= |dom.next.statements| + 1 ==> |dom.shouldPublish| < cfg.layout.queueSize)
  {
    hide Core, TicketsOk, Covered, Contiguous, Staged;
    LiveDomain(cfg, s, d);
  }

  lemma SubmitPanics(cfg: Config, s: State, c: Call)
    requires Core(cfg, s) && c.Submit?
    ensures Apply(cfg, s, c).Panicked? <==> OwnerlessSubmission(s, c) || OverflowingSubmission(cfg, s, c)
    ensures Apply(cfg, s, c).Panicked? ==> Apply(cfg, s, c).site == SubmissionSite(s, c)
  {
    hide Core, AcceptStatement, ReserveCurrency, MayAddProof, Permitted, HasRoom, Shaped;
    if c.account.Some? && c.domain.Some? && c.domain.value in s.domains {
      var d, who := c.domain.value, c.account.value;
      LiveDomain(cfg, s, d);
      RoomAgrees(cfg, s.domains[d]);
      PermittedAgrees(s.domains[d], s.allowlist, who);
      SizePositive(cfg, s, d);
      ReserveSafe(s.balances, s.domains[d], who, c.quote);
      var r := ReserveCurrency(s.balances, s.domains[d], who, c.quote);
      if r.Reserved? && s.domains[d].state == Ready && s.domains[d].CanAddStatement() {
        var funded := s.(balances := r.balances);
        assert funded.events == s.events + [];
        QuietStep(cfg, s, funded, []);
        AcceptStep(cfg, funded, d, StatementEntry(who, r.reserve, c.statement));
      }
      if OwnerlessSubmission(s, c) { NobodyPermitted(s.domains[d], s.allowlist, who); }
    }
  }

  lemma NobodyPermitted(dom: Domain, allowlist: Allowlist, who: Account)
    requires dom.proofRules == OnlyOwnerSubmits && dom.owner == Manager
    ensures !Permitted(dom, allowlist, who)
  {
  }

  /** In every reachable state the open aggregation has its registered size and room for a
      statement, and the queue is within its bound. Hence no call panics on a full vector, a full
      queue, a fee division or an undone hold: the only panics are the missing owner account of a
      manager's owner-only domain and, in a build that checks for them, overflowing fees, and
      exactly the submissions that get there meet them. */
  lemma PanicsExactly(cfg: Config, free: multiset<Account>, calls: seq<Call>, c: Call)
    ensures var s := After(cfg, free, calls);
            && (Apply(cfg, s, c).Panicked? <==> OwnerlessSubmission(s, c) || OverflowingSubmission(cfg, s, c))
            && (Apply(cfg, s, c).Panicked? ==> c.Submit? && Apply(cfg, s, c).site == SubmissionSite(s, c))
            && forall d :: d in s.domains ==>
                 var dom := s.domains[d];
                 && 1 <= dom.next.size == dom.maxAggregationSize <= cfg.layout.aggregationSize
                 && |dom.next.statements| < dom.next.size
                 && |dom.shouldPublish| <= dom.publishQueueSize <= cfg.layout.queueSize
  {
    hide After, Core, Apply, Contiguous, Staged;
    Reachable(cfg, free, calls);
    var s := After(cfg, free, calls);
    forall d | d in s.domains ensures DomainOk(cfg, d, s.domains[d], s.archive, s.allowlist) {
      LiveDomain(cfg, s, d);
    }
    if c.Submit? { SubmitPanics(cfg, s, c); } else { OthersNeverPanic(cfg, s, c); }
  }

  lemma OthersNeverPanic(cfg: Config, s: State, c: Call)
    requires !c.Submit?
    ensures !Apply(cfg, s, c).Panicked?
  {
    hide TakeAggregation, HandleHoldState, PayFrom, Receipt, ComputeEncodedSize;
  }

  /** The panic is reachable: registration accepts an owner-only domain from the manager. */
  lemma OwnerlessDomainPanics(cfg: Config, free: multiset<Account>, who: Account, statement: Digest, q: Quote)
    requires cfg.layout.aggregationSize >= 1 && cfg.layout.queueSize >= 1
    ensures var register := RegisterDomain(Some(Manager), 1, None, AnyoneAggregates, OnlyOwnerSubmits, 0, 0, Some(who),
                                           Deposits(false, false));
            Apply(cfg, After(cfg, free, [register]), Submit(Some(who), Some(0), statement, q)) == Panicked(MissingOwner)
  {
    var register := RegisterDomain(Some(Manager), 1, None, AnyoneAggregates, OnlyOwnerSubmits, 0, 0, Some(who),
                                   Deposits(false, false));
    RunOne(cfg, Genesis(free), register);
  }

  /** A fee and a tip that overflow make the next submission panic in a checked build; in any other
      their sum wraps around to zero and it does not. */
  lemma OverflowingFeePanics(cfg: Config, free: multiset<Account>, who: Account, statement: Digest, q: Quote)
    requires cfg.layout.aggregationSize >= 1 && cfg.layout.queueSize >= 1 && q.Sum() <= U128_MAX
    ensures var register := RegisterDomain(Some(Manager), 1, None, AnyoneAggregates, AnyoneSubmits, U128_MAX, 1,
                                           Some(who), Deposits(false, false));
            var s, c := After(cfg, free, [register]), Submit(Some(who), Some(0), statement, q);
            && (cfg.checked ==> Apply(cfg, s, c) == Panicked(FeeOverflow))
            && (!cfg.checked ==> !Apply(cfg, s, c).Panicked? && 0 in s.domains && s.domains[0].delivery.TotalFee() == 0)
  {
    hide AcceptStatement, ReserveCurrency, ComputeEncodedSize;
    var register := RegisterDomain(Some(Manager), 1, None, AnyoneAggregates, AnyoneSubmits, U128_MAX, 1, Some(who),
                                   Deposits(false, false));
    RunOne(cfg, Genesis(free), register);
    PanicsExactly(cfg, free, [register], Submit(Some(who), Some(0), statement, q));
  }

  /* ---------- rounding ---------- */

  /** Every statement of `es` reserved its share of both fees for an aggregation of size `k`. */
  ghost predicate EqualShares(es: seq<StatementEntry>, k: nat, publish: nat, delivery: nat) {
    k >= 1 && forall i :: 0 <= i < |es| ==> es[i].reserve == Reserve(Share(publish, k), Share(delivery, k))
  }

  /** `n` shares of a fee never exceed it, and `k` of them miss less than `k`. */
  lemma ShareBounds(total: nat, k: nat, n: nat)
    requires 1 <= k && n <= k
    ensures n * Share(total, k) <= total
    ensures n == k ==> n * Share(total, k) > total - k
  {
    var q := total / k;
    assert total == k * q + total % k;
    MulMonotone(n, k, q);
  }

  lemma {:induction false} EqualTotals(es: seq<StatementEntry>, k: nat, publish: nat, delivery: nat)
    requires EqualShares(es, k, publish, delivery)
    ensures TotalAggregate(es) == |es| * Share(publish, k) && TotalDelivery(es) == |es| * Share(delivery, k)
  {
    hide Share;
    if es != [] {
      EqualTotals(es[1..], k, publish, delivery);
      MulSuccessor(|es| - 1, Share(publish, k));
      MulSuccessor(|es| - 1, Share(delivery, k));
    }
  }

  lemma CollectedBounds(es: seq<StatementEntry>, k: nat, publish: nat, delivery: nat)
    requires EqualShares(es, k, publish, delivery) && |es| <= k
    ensures TotalAggregate(es) <= publish && TotalDelivery(es) <= delivery
    ensures |es| == k ==> TotalAggregate(es) > publish - k && TotalDelivery(es) > delivery - k
  {
    hide Share, EqualShares, TotalAggregate, TotalDelivery;
    EqualTotals(es, k, publish, delivery);
    assert k >= 1 by { SharesPositive(es, k, publish, delivery); }
    ShareBounds(publish, k, |es|);
    ShareBounds(delivery, k, |es|);
  }

  lemma SharesPositive(es: seq<StatementEntry>, k: nat, publish: nat, delivery: nat)
    requires EqualShares(es, k, publish, delivery)
    ensures k >= 1
  {
  }

  /** A call that leaves the two fees of domain `d` as they are. */
  ghost predicate Steady(c: Call, d: nat, publish: nat, delivery: nat) {
    && (c.Submit? && c.domain == Some(d) ==> c.quote.PublishFee() == publish)
    && (c.SetFee? && c.domainId == d ==> DeliveryParams(0, c.fee, c.ownerTip).TotalFee() == delivery)
  }

  /** Aggregation `f` of domain `d` is open. */
  ghost predicate Filling(s: State, d: nat, f: nat) {
    d in s.domains && s.domains[d].next.id == f
  }

  /** The fees stay as they are at every call made while aggregation `f` of domain `d` is open;
      afterwards they may change. */
  ghost predicate SteadyWhileFilling(cfg: Config, s: State, calls: seq<Call>, d: nat, f: nat, publish: nat,
                                     delivery: nat)
    decreases |calls|
  {
    calls != [] ==>
      && (Filling(s, d, f) ==> Steady(calls[0], d, publish, delivery))
      && SteadyWhileFilling(cfg, Next(cfg, s, calls[0]), calls[1..], d, f, publish, delivery)
  }

  /** Aggregation `f` of domain `d` holds equal shares, wherever it is by now. */
  ghost predicate Even(s: State, d: nat, f: nat, k: nat, publish: nat, delivery: nat) {
    && d < s.nextDomainId && f >= 1
    && ((d, f) in s.archive ==>
          && |s.archive[(d, f)].statements| <= k
          && EqualShares(s.archive[(d, f)].statements, k, publish, delivery))
    && (d in s.domains ==>
          && s.domains[d].maxAggregationSize == k
          && (f in s.domains[d].shouldPublish ==>
                EqualShares(s.domains[d].shouldPublish[f].statements, k, publish, delivery))
          && (if s.domains[d].next.id == f
              then
                && s.domains[d].delivery.TotalFee() == delivery
                && EqualShares(s.domains[d].next.statements, k, publish, delivery)
              else f < Frontier(s.domains[d])))
  }

  lemma ReserveShares(b: Balances, dom: Domain, who: Account, q: Quote)
    requires ReserveCurrency(b, dom, who, q).Reserved?
    ensures dom.next.size >= 1
    ensures ReserveCurrency(b, dom, who, q).reserve
         == Reserve(Share(q.PublishFee(), dom.next.size), Share(dom.delivery.TotalFee(), dom.next.size))
  {
    hide Share;
  }

  lemma AcceptEven(cfg: Config, s: State, d: nat, e: StatementEntry, x: nat, f: nat, k: nat, publish: nat,
                   delivery: nat)
    requires Core(cfg, s) && d in s.domains && s.domains[d].state == Ready && s.domains[d].CanAddStatement()
    requires Even(s, x, f, k, publish, delivery)
    requires Filling(s, d, f) && x == d ==> e.reserve == Reserve(Share(publish, k), Share(delivery, k)) && k >= 1
    ensures AcceptStatement(cfg, s, d, e).Done? && Even(AcceptStatement(cfg, s, d, e).state, x, f, k, publish, delivery)
  {
    hide Core, AppendStatement, HandleHoldState, Share, Contiguous, Staged;
    LiveDomain(cfg, s, d);
    var dom := s.domains[d];
    AppendEffect(cfg, d, dom, s.archive, e);
    HoldEffectWeak(AppendStatement(cfg, dom, e).0.value.0, s.allowlist);
  }

  lemma HoldEffectWeak(dom: Domain, allowlist: Allowlist)
    ensures HandleHoldState(dom, allowlist).0 == dom.(state := HandleHoldState(dom, allowlist).0.state)
  {
  }

  lemma SubmitEven(cfg: Config, s: State, c: Call, d: nat, f: nat, k: nat, publish: nat, delivery: nat)
    requires Core(cfg, s) && c.Submit? && Apply(cfg, s, c).Done?
    requires Even(s, d, f, k, publish, delivery) && (Filling(s, d, f) ==> Steady(c, d, publish, delivery))
    ensures Even(Apply(cfg, s, c).state, d, f, k, publish, delivery)
  {
    hide Core, AcceptStatement, ReserveCurrency, Share, MayAddProof, EqualShares;
    var t := Apply(cfg, s, c).state;
    if t.domains != s.domains {
      var x, who := c.domain.value, c.account.value;
      var r := ReserveCurrency(s.balances, s.domains[x], who, c.quote);
      var funded := s.(balances := r.balances);
      assert funded.events == s.events + [];
      QuietStep(cfg, s, funded, []);
      ReserveShares(s.balances, s.domains[x], who, c.quote);
      SizeIsMax(cfg, s, x);
      AcceptEven(cfg, funded, x, StatementEntry(who, r.reserve, c.statement), d, f, k, publish, delivery);
    } else {
      SubmitKeepsArchive(cfg, s, c);
    }
  }

  lemma SubmitKeepsArchive(cfg: Config, s: State, c: Call)
    requires c.Submit? && Apply(cfg, s, c).Done?
    ensures Apply(cfg, s, c).state.archive == s.archive && Apply(cfg, s, c).state.nextDomainId == s.nextDomainId
  {
    hide AppendStatement, HandleHoldState, ReserveCurrency;
  }

  lemma SizeIsMax(cfg: Config, s: State, d: nat)
    requires Core(cfg, s) && d in s.domains
    ensures s.domains[d].next.size == s.domains[d].maxAggregationSize
  {
    hide Core, Contiguous, Staged;
    LiveDomain(cfg, s, d);
  }

  lemma PublishEven(cfg: Config, s: State, c: Call, d: nat, f: nat, k: nat, publish: nat, delivery: nat)
    requires Core(cfg, s) && c.Aggregate? && Apply(cfg, s, c).Done? && Even(s, d, f, k, publish, delivery)
    ensures Even(Apply(cfg, s, c).state, d, f, k, publish, delivery)
  {
    hide Core, TakeAggregation, HandleHoldState, PayFrom, Receipt, Share, Contiguous, Staged;
    var x, id := c.domainId, c.aggregationId;
    LiveDomain(cfg, s, x);
    TakeEffect(cfg, x, s.domains[x], s.archive, id);
    HoldEffectWeak(TakeAggregation(s.domains[x], id).0, s.allowlist);
  }

  lemma ManageEven(cfg: Config, s: State, c: Call, d: nat, f: nat, k: nat, publish: nat, delivery: nat)
    requires Core(cfg, s) && !c.Submit? && !c.Aggregate? && Apply(cfg, s, c).Done?
    requires Even(s, d, f, k, publish, delivery) && (Filling(s, d, f) ==> Steady(c, d, publish, delivery))
    ensures Even(Apply(cfg, s, c).state, d, f, k, publish, delivery)
  {
    hide Core, ComputeEncodedSize, Submitters, EqualShares;
  }

  lemma {:induction false} RunKeepsEven(cfg: Config, s: State, calls: seq<Call>, d: nat, f: nat, k: nat, publish: nat,
                                        delivery: nat)
    requires Core(cfg, s) && Even(s, d, f, k, publish, delivery)
    requires SteadyWhileFilling(cfg, s, calls, d, f, publish, delivery)
    ensures Even(Run(cfg, s, calls), d, f, k, publish, delivery)
    decreases |calls|
  {
    hide Core, Apply, Even, Steady, Filling;
    if calls != [] {
      var c := calls[0];
      if Apply(cfg, s, c).Done? {
        if c.Submit? {
          SubmitEven(cfg, s, c, d, f, k, publish, delivery);
        } else if c.Aggregate? {
          PublishEven(cfg, s, c, d, f, k, publish, delivery);
        } else {
          ManageEven(cfg, s, c, d, f, k, publish, delivery);
        }
      }
      CallKeepsCore(cfg, s, c);
      RunKeepsEven(cfg, Next(cfg, s, c), calls[1..], d, f, k, publish, delivery);
    }
  }

  /** Rounding. Take any run up to a point where the open aggregation of a domain is empty, and
      any continuation in which the estimate and the delivery fee of that domain stay the same
      while that aggregation is open; they may change while it waits in the queue. However it
      is published by then, its submitters reserved at most both fees, and if it was
      completed, less than its size below each. */
  lemma RoundingBounds(cfg: Config, free: multiset<Account>, before: seq<Call>, rest: seq<Call>, d: nat, publish: nat)
    requires d in After(cfg, free, before).domains && After(cfg, free, before).domains[d].next.statements == []
    requires var s := After(cfg, free, before);
             SteadyWhileFilling(cfg, s, rest, d, s.domains[d].next.id, publish, s.domains[d].delivery.TotalFee())
    ensures var s, t := After(cfg, free, before), After(cfg, free, before + rest);
            var f, k := s.domains[d].next.id, s.domains[d].maxAggregationSize;
            var delivery := s.domains[d].delivery.TotalFee();
            (d, f) in t.archive ==>
              var es := t.archive[(d, f)].statements;
              && TotalAggregate(es) <= publish && TotalDelivery(es) <= delivery
              && (|es| == k ==> TotalAggregate(es) > publish - k && TotalDelivery(es) > delivery - k)
  {
    hide After, Core, SteadyWhileFilling, TotalAggregate, TotalDelivery, Share, Staged;
    Reachable(cfg, free, before);
    Reachable(cfg, free, before + rest);
    var s, t := After(cfg, free, before), After(cfg, free, before + rest);
    var f, k, delivery := s.domains[d].next.id, s.domains[d].maxAggregationSize, s.domains[d].delivery.TotalFee();
    if (d, f) in t.archive {
      FiledUnder(cfg, t, d, f);
      LiveDomain(cfg, s, d);
      AfterConcat(cfg, free, before, rest);
      RunKeepsEven(cfg, s, rest, d, f, k, publish, delivery);
      CollectedBounds(t.archive[(d, f)].statements, k, publish, delivery);
    }
  }

  lemma AfterConcat(cfg: Config, free: multiset<Account>, before: seq<Call>, rest: seq<Call>)
    ensures After(cfg, free, before + rest) == Run(cfg, After(cfg, free, before), rest)
  {
    RunConcat(cfg, Genesis(free), before, rest);
  }

  /* ---------- deposits ---------- */

  lemma TicketsOf(cfg: Config, s: State, d: nat)
    requires Core(cfg, s) && TicketsOk(cfg, s) && d in s.domains
    ensures Ticketed(cfg, d, s.domains[d], s.allowlist) && Shaped(cfg, s.domains[d]) && s.domains[d].id == d
  {
    hide Core, ComputeEncodedSize, Contiguous, Staged;
    LiveDomain(cfg, s, d);
  }

  /** In every reachable state: an account-owned domain has a deposit that covers its encoding, and
      its allowlist ticket counts the distinct allowlisted accounts whatever duplicates or
      absent names the batches had. A manager's domain has no deposit. */
  lemma DepositsOverRuns(cfg: Config, free: multiset<Account>, calls: seq<Call>, d: nat)
    requires Addressable(cfg.layout) && d in After(cfg, free, calls).domains
    ensures var s := After(cfg, free, calls);
            var dom := s.domains[d];
            && (dom.owner.Manager? ==> dom.ticketDomain.None? && dom.ticketAllowlist.None?)
            && (dom.owner.Signer? ==>
                  dom.ticketDomain.Some? && EncodedLen(cfg.layout, dom) <= dom.ticketDomain.value.size)
            && (dom.ticketAllowlist.Some? <==> dom.owner.Signer? && dom.proofRules == OnlyAllowlisted)
            && (dom.ticketAllowlist.Some? ==> dom.ticketAllowlist.value.count == |Submitters(s.allowlist, d)|)
  {
    hide After, Core, TicketsOk, ComputeEncodedSize, EncodedLen, Shaped;
    Reachable(cfg, free, calls);
    var s := After(cfg, free, calls);
    TicketsOf(cfg, s, d);
    DepositCovers(cfg, s.domains[d]);
  }

  /** Every ticket went back to the account that had paid for it. */
  ghost predicate Repaid(s: State) {
    forall i :: 0 <= i < |s.refunds| ==> s.refunds[i].1 == s.refunds[i].0.payer
  }

  /** The tickets of a domain. */
  function TicketsIn(dom: Domain): seq<Ticket> {
    (if dom.ticketDomain.Some? then [dom.ticketDomain.value] else [])
    + if dom.ticketAllowlist.Some? then [dom.ticketAllowlist.value.ticket] else []
  }

  /** Whoever unregisters a domain, each of its tickets goes back, to the account that paid for it. */
  lemma UnregisterRepays(cfg: Config, s: State, c: Call, t: State)
    requires Core(cfg, s) && TicketsOk(cfg, s) && c.UnregisterDomain? && Apply(cfg, s, c) == Done(t)
    ensures var tickets := TicketsIn(s.domains[c.domainId]);
            t.refunds == s.refunds + seq(|tickets|, i requires 0 <= i < |tickets| => (tickets[i], tickets[i].payer))
  {
    hide Core, TicketsOk, ComputeEncodedSize, Submitters, Shaped;
    TicketsOf(cfg, s, c.domainId);
  }

  lemma CallRepays(cfg: Config, s: State, c: Call)
    requires Core(cfg, s) && TicketsOk(cfg, s) && Repaid(s)
    ensures Repaid(Next(cfg, s, c))
    ensures !c.UnregisterDomain? ==> Next(cfg, s, c).refunds == s.refunds
  {
    hide Core, TicketsOk, ComputeEncodedSize, AppendStatement, HandleHoldState, ReserveCurrency, MayAddProof,
         TakeAggregation, PayFrom, Receipt,
         Recount, Entries;
    if c.UnregisterDomain? && Apply(cfg, s, c).Done? {
      UnregisterRepays(cfg, s, c, Apply(cfg, s, c).state);
    }
  }

  lemma {:induction false} RunRepays(cfg: Config, s: State, calls: seq<Call>)
    requires Inv(cfg, s) && Repaid(s)
    ensures Repaid(Run(cfg, s, calls))
    decreases |calls|
  {
    hide Inv, Next, Repaid;
    if calls != [] {
      InvParts(cfg, s);
      CallRepays(cfg, s, calls[0]);
      CallKeepsInv(cfg, s, calls[0]);
      RunRepays(cfg, Next(cfg, s, calls[0]), calls[1..]);
    }
  }

  lemma InvParts(cfg: Config, s: State)
    requires Inv(cfg, s)
    ensures Core(cfg, s) && TicketsOk(cfg, s)
  {
    hide Core, TicketsOk, Covered;
  }

  /** Over every run: no ticket ever went to anybody but the account that had paid for it, and whoever
      unregisters a domain next gives back both of its tickets, and nothing else. */
  lemma RefundsOverRuns(cfg: Config, free: multiset<Account>, calls: seq<Call>, c: Call, t: State)
    requires c.UnregisterDomain? && Apply(cfg, After(cfg, free, calls), c) == Done(t)
    ensures var s := After(cfg, free, calls);
            var tickets := TicketsIn(s.domains[c.domainId]);
            && Repaid(t)
            && t.refunds == s.refunds + seq(|tickets|, i requires 0 <= i < |tickets| => (tickets[i], tickets[i].payer))
  {
    hide After, Core, TicketsOk, Covered, TicketsIn;
    Reachable(cfg, free, calls);
    GenesisInv(cfg, free);
    StartsRepaid(cfg, free, calls);
    UnregisterRepays(cfg, After(cfg, free, calls), c, t);
  }

  lemma StartsRepaid(cfg: Config, free: multiset<Account>, calls: seq<Call>)
    ensures Repaid(After(cfg, free, calls))
  {
    hide Inv, Run;
    GenesisInv(cfg, free);
    RunRepays(cfg, Genesis(free), calls);
  }

  /** In every reachable state removing submitters is refused for the domain's rules or the
      ticket's price, never because the counter would underflow. */
  lemma RemovalNeverUnderflows(cfg: Config, free: multiset<Account>, calls: seq<Call>, who: User, d: nat,
                               submitters: Batch)
    requires d in After(cfg, free, calls).domains && MayHandle(After(cfg, free, calls).domains[d], who)
    ensures var s := After(cfg, free, calls);
            RemoveSubmitters(s, Some(who), d, submitters, true).Done? <==> s.domains[d].proofRules == OnlyAllowlisted
  {
    hide After, Core, TicketsOk, HandleHoldState, Submitters, ComputeEncodedSize;
    Reachable(cfg, free, calls);
    var s := After(cfg, free, calls);
    TicketsOf(cfg, s, d);
    if s.domains[d].ticketAllowlist.Some? { DropNeverUnderflows(cfg, s, d, submitters); }
  }
}
