/**
 Exactly when registration deposits cover what is stored: a run that fills a domain to its
 largest length, for every runtime.
 */
module AggregateFootprint {
  import opened Prelude
  import opened Ledger
  import opened AggregateData
  import opened AggregateEncoding
  import opened AggregateSpec
  import opened AggregateInvariant
  import opened AggregatePreservation
  import opened AggregateDeposits
  import opened AggregateTheorems
  import opened AggregatePaths
  import opened AggregateSafety

  /** Domain 0 is an account's allowlist domain with the largest sizes and no fees; it has `n` queued
      aggregations and `j` statements in the open one. */
  ghost predicate Filled(cfg: Config, s: State, n: nat, j: nat) {
    && 0 in s.domains && (0, 0) in s.allowlist
    && var dom := s.domains[0];
       && dom.owner == Signer(0) && dom.state == Ready && dom.proofRules == OnlyAllowlisted
       && dom.maxAggregationSize == dom.next.size == cfg.layout.aggregationSize
       && dom.publishQueueSize == cfg.layout.queueSize
       && dom.delivery.fee == dom.delivery.ownerTip == 0
       && dom.next.id == n + 1 && |dom.next.statements| == j && |dom.shouldPublish| == n
  }

  function Registration(cfg: Config): Call {
    RegisterDomain(Some(Signer(0)), cfg.layout.aggregationSize, None, AnyoneAggregates, OnlyAllowlisted, 0, 0, None,
                   Deposits(true, true))
  }

  const ALLOW: Call := AddSubmitters(Some(Signer(0)), 0, [0], true)

  const SUBMIT: Call := Submit(Some(0), Some(0), seq(32, _ => 0), Quote(0, None, true, true))

  lemma Opened(cfg: Config, free: multiset<Account>)
    requires cfg.layout.aggregationSize >= 1 && cfg.layout.queueSize >= 1
    ensures Filled(cfg, After(cfg, free, [Registration(cfg)] + [ALLOW]), 0, 0)
  {
    hide ComputeEncodedSize;
    var s := Next(cfg, Genesis(free), Registration(cfg));
    RunConcat(cfg, Genesis(free), [Registration(cfg)], [ALLOW]);
    RunOne(cfg, Genesis(free), Registration(cfg));
    RunOne(cfg, s, ALLOW);
    assert Entries(0, [0]) - s.allowlist == {(0, 0)};
  }

  /** Without a fee the holds are of nothing and are granted. */
  lemma FreeOfCharge(b: Balances, dom: Domain, q: Quote)
    requires dom.delivery.fee == dom.delivery.ownerTip == 0 && dom.next.size >= 1 && q == Quote(0, None, true, true)
    ensures ReserveCurrency(b, dom, 0, q).Reserved?
  {
  }

  /** A statement that does not exhaust the ids leaves the domain ready. */
  lemma AppendReady(cfg: Config, dom: Domain, e: StatementEntry)
    requires dom.state == Ready && dom.next.id < U64_MAX && AppendStatement(cfg, dom, e).0.Some?
    ensures AppendStatement(cfg, dom, e).0.value.0.state == Ready
  {
  }

  /** What one more statement does to a ready domain. */
  lemma AppendCounts(cfg: Config, dom: Domain, archive: Archive, e: StatementEntry)
    requires Shaped(cfg, dom) && Contiguous(0, dom.shouldPublish, archive, Frontier(dom))
    requires dom.state == Ready && dom.CanAddStatement() && 1 <= dom.next.id < U64_MAX
    ensures AppendStatement(cfg, dom, e).0.Some?
    ensures var after, full := AppendStatement(cfg, dom, e).0.value.0, |dom.next.statements| + 1 == dom.next.size;
            && after == dom.(next := after.next, shouldPublish := after.shouldPublish)
            && after.next.size == dom.next.size
            && after.next.id == (if full then dom.next.id + 1 else dom.next.id)
            && |after.next.statements| == (if full then 0 else |dom.next.statements| + 1)
            && |after.shouldPublish| == if full then |dom.shouldPublish| + 1 else |dom.shouldPublish|
  {
    hide AppendStatement;
    AppendEffect(cfg, 0, dom, archive, e);
    AppendReady(cfg, dom, e);
    var after := AppendStatement(cfg, dom, e).0.value.0;
    if |dom.next.statements| + 1 == dom.next.size {
      assert dom.next.id !in dom.shouldPublish;
      assert after.shouldPublish.Keys == dom.shouldPublish.Keys + {dom.next.id};
    }
  }

  lemma FillOne(cfg: Config, s: State, n: nat, j: nat)
    requires Core(cfg, s) && Filled(cfg, s, n, j) && j < cfg.layout.aggregationSize
    requires n < cfg.layout.queueSize || (n == cfg.layout.queueSize && j + 1 < cfg.layout.aggregationSize)
    ensures var full := j + 1 == cfg.layout.aggregationSize;
            Filled(cfg, Next(cfg, s, SUBMIT), if full then n + 1 else n, if full then 0 else j + 1)
  {
    hide Core, AppendStatement, ReserveCurrency, Staged, Shaped, Contiguous;
    LiveDomain(cfg, s, 0);
    var dom := s.domains[0];
    FreeOfCharge(s.balances, dom, SUBMIT.quote);
    var r := ReserveCurrency(s.balances, dom, 0, SUBMIT.quote);
    AppendCounts(cfg, dom, s.archive, StatementEntry(0, r.reserve, SUBMIT.statement));
  }

  /** A run that gets there. */
  lemma {:induction false} FillTo(cfg: Config, free: multiset<Account>, n: nat, j: nat) returns (calls: seq<Call>)
    requires n <= cfg.layout.queueSize && j < cfg.layout.aggregationSize && cfg.layout.queueSize >= 1
    ensures Filled(cfg, After(cfg, free, calls), n, j)
    decreases n, j
  {
    hide Filled, After, Core, TicketsOk;
    if n == 0 && j == 0 {
      Opened(cfg, free);
      calls := [Registration(cfg)] + [ALLOW];
    } else {
      var m, k := if j > 0 then n else n - 1, if j > 0 then j - 1 else cfg.layout.aggregationSize - 1;
      var before := FillTo(cfg, free, m, k);
      Reachable(cfg, free, before);
      FillOne(cfg, After(cfg, free, before), m, k);
      AfterConcat(cfg, free, before, [SUBMIT]);
      RunOne(cfg, After(cfg, free, before), SUBMIT);
      calls := before + [SUBMIT];
    }
  }

  /** Filled up, the domain has the largest length, and a ticket for what was computed at registration. */
  lemma FilledLength(cfg: Config, s: State)
    requires cfg.layout.aggregationSize >= 1 && Core(cfg, s) && TicketsOk(cfg, s)
    requires Filled(cfg, s, cfg.layout.queueSize, cfg.layout.aggregationSize - 1)
    ensures EncodedLen(cfg.layout, s.domains[0]) == LargestLen(cfg.layout)
    ensures s.domains[0].ticketDomain.Some? && s.domains[0].ticketDomain.value.size <= USIZE_MAX
  {
    hide Core, TicketsOk, CompactLen, StatementLen, QueueEntriesLen, ComputeEncodedSize, Submitters;
    var l, dom := cfg.layout, s.domains[0];
    TicketsOf(cfg, s, 0);
    QueueLenIs(l, dom.shouldPublish, 8 + AggregationBound(l, l.aggregationSize));
    NeverAboveMaximum(l, dom.maxAggregationSize, dom.publishQueueSize);
  }

  /** The deposit of this domain, if one was taken, covers what is stored of it. */
  ghost predicate Covers(cfg: Config, s: State, d: nat) {
    d in s.domains && s.domains[d].ticketDomain.Some? ==>
      EncodedLen(cfg.layout, s.domains[d]) <= s.domains[d].ticketDomain.value.size
  }

  lemma CoversAfter(cfg: Config, free: multiset<Account>, calls: seq<Call>, d: nat)
    requires Addressable(cfg.layout)
    ensures Covers(cfg, After(cfg, free, calls), d)
  {
    hide After, Addressable, EncodedLen;
    if d in After(cfg, free, calls).domains { DepositsOverRuns(cfg, free, calls, d); }
  }

  /** For every runtime: in every reachable state every deposit covers the encoding of its domain, if and
      only if the length of the largest domain can be said in a `usize`. */
  lemma DepositsCoverExactly(cfg: Config, free: multiset<Account>)
    ensures (forall calls, d :: Covers(cfg, After(cfg, free, calls), d)) <==> Addressable(cfg.layout)
  {
    hide After, Covers, LargestLen;
    if Addressable(cfg.layout) {
      forall calls, d ensures Covers(cfg, After(cfg, free, calls), d) {
        CoversAfter(cfg, free, calls, d);
      }
    } else {
      var calls := FillTo(cfg, free, cfg.layout.queueSize, cfg.layout.aggregationSize - 1);
      Overgrown(cfg, free, calls);
    }
  }

  lemma Overgrown(cfg: Config, free: multiset<Account>, calls: seq<Call>)
    requires !Addressable(cfg.layout)
    requires Filled(cfg, After(cfg, free, calls), cfg.layout.queueSize, cfg.layout.aggregationSize - 1)
    ensures !Covers(cfg, After(cfg, free, calls), 0)
  {
    hide After, Core, TicketsOk, EncodedLen, LargestLen;
    Reachable(cfg, free, calls);
    FilledLength(cfg, After(cfg, free, calls));
  }
}
