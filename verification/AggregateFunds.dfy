/**
 Money: what pending statements have on hold, who is paid on publication, and what an
 aggregation collects.
 */
module AggregateFunds {
  import opened Prelude
  import opened Ledger
  import opened AggregateData
  import opened AggregateEncoding
  import opened AggregateSpec
  import opened AggregateInvariant
  import opened AggregatePreservation

  /** The holds one statement stands for. */
  function Units(e: StatementEntry): Holds {
    multiset{}[(e.account, Aggregation) := e.reserve.aggregate][(e.account, Delivery) := e.reserve.delivery]
  }

  function UnitsOf(es: seq<StatementEntry>): Holds {
    if es == [] then multiset{} else Units(es[0]) + UnitsOf(es[1..])
  }

  /** The holds of the queued aggregations with an id below `n`. */
  function QueueUnits(q: map<nat, AggregationEntry>, n: nat): Holds {
    if n == 0 then multiset{}
    else QueueUnits(q, n - 1) + if n - 1 in q then UnitsOf(q[n - 1].statements) else multiset{}
  }

  function DomainUnits(dom: Domain): Holds {
    QueueUnits(dom.shouldPublish, Frontier(dom)) + UnitsOf(dom.next.statements)
  }

  /** The holds of every statement pending in a domain with an id below `n`. */
  function Pending(domains: map<nat, Domain>, n: nat): Holds {
    if n == 0 then multiset{}
    else Pending(domains, n - 1) + if n - 1 in domains then DomainUnits(domains[n - 1]) else multiset{}
  }

  /** Every pending statement is still covered by its submitter's holds. */
  ghost predicate Covered(s: State) { Pending(s.domains, s.nextDomainId) <= s.balances.held }

  /** Nothing else is on hold. */
  ghost predicate Exact(s: State) { Pending(s.domains, s.nextDomainId) == s.balances.held }

  /* ---------- sums ---------- */

  lemma Exchange<T>(a: multiset<T>, b: multiset<T>, c: multiset<T>, d: multiset<T>, x: multiset<T>)
    requires a + b == c + d
    ensures (a + x) + b == (c + x) + d
  {
    assert (a + x) + b == (a + b) + x && (c + x) + d == (c + d) + x;
  }

  lemma Swap<T>(a: multiset<T>, b: multiset<T>, c: multiset<T>)
    ensures (a + b) + c == (a + c) + b
  {
  }

  lemma Cancel<T>(rest: multiset<T>, now: multiset<T>, later: multiset<T>, all: multiset<T>)
    requires rest + now == all && now + later <= all
    ensures later <= rest
  {
    forall k ensures later[k] <= rest[k] {
      assert (rest + now)[k] == all[k] && (now + later)[k] <= all[k];
    }
  }

  lemma {:induction false} UnitsConcat(a: seq<StatementEntry>, b: seq<StatementEntry>)
    ensures UnitsOf(a + b) == UnitsOf(a) + UnitsOf(b)
  {
    if a == [] {
      assert a + b == b;
    } else {
      assert (a + b)[1..] == a[1..] + b;
      UnitsConcat(a[1..], b);
    }
  }

  lemma {:induction false} QueueSame(q: map<nat, AggregationEntry>, q': map<nat, AggregationEntry>, n: nat)
    requires forall id: nat :: id < n ==> (id in q <==> id in q') && (id in q ==> q[id] == q'[id])
    ensures QueueUnits(q, n) == QueueUnits(q', n)
  {
    hide UnitsOf;
    if n > 0 { QueueSame(q, q', n - 1); }
  }

  lemma {:induction false} QueueTake(q: map<nat, AggregationEntry>, id: nat, n: nat)
    requires id in q && id < n
    ensures QueueUnits(q, n) == QueueUnits(q - {id}, n) + UnitsOf(q[id].statements)
  {
    hide UnitsOf;
    if id == n - 1 {
      QueueSame(q, q - {id}, n - 1);
    } else {
      QueueTake(q, id, n - 1);
      var last := if n - 1 in q then UnitsOf(q[n - 1].statements) else multiset{};
      Swap(QueueUnits(q - {id}, n - 1), UnitsOf(q[id].statements), last);
    }
  }

  lemma {:induction false} EmptyQueue(n: nat)
    ensures QueueUnits(map[], n) == multiset{}
  {
    if n > 0 { EmptyQueue(n - 1); }
  }

  lemma {:induction false} PendingSame(ds: map<nat, Domain>, ds': map<nat, Domain>, n: nat)
    requires forall d: nat :: d < n ==>
               (d in ds <==> d in ds') && (d in ds ==> DomainUnits(ds[d]) == DomainUnits(ds'[d]))
    ensures Pending(ds, n) == Pending(ds', n)
  {
    if n > 0 { PendingSame(ds, ds', n - 1); }
  }

  /** Replacing one domain changes the sum by the difference. */
  lemma {:induction false} PendingUpdate(ds: map<nat, Domain>, d: nat, dom: Domain, n: nat)
    requires d in ds && d < n
    ensures Pending(ds, n) + DomainUnits(dom) == Pending(ds[d := dom], n) + DomainUnits(ds[d])
  {
    hide DomainUnits;
    if d == n - 1 {
      PendingSame(ds, ds[d := dom], n - 1);
    } else {
      PendingUpdate(ds, d, dom, n - 1);
      var last := if n - 1 in ds then DomainUnits(ds[n - 1]) else multiset{};
      Exchange(Pending(ds, n - 1), DomainUnits(dom), Pending(ds[d := dom], n - 1), DomainUnits(ds[d]), last);
    }
  }

  lemma {:induction false} PendingRemove(ds: map<nat, Domain>, d: nat, n: nat)
    requires d in ds && DomainUnits(ds[d]) == multiset{}
    ensures Pending(ds - {d}, n) == Pending(ds, n)
  {
    hide DomainUnits;
    if n > 0 { PendingRemove(ds, d, n - 1); }
  }

  /* ---------- payments ---------- */

  lemma PayStatementBounds(b: Balances, e: StatementEntry, caller: Option<Account>, owner: Account, p: Payment)
    ensures var after := PayStatement(b, e, caller, owner, p);
            after.Total() == b.Total() && after.held <= b.held <= after.held + Units(e)
  {
    hide HandleHeldFunds;
    var paid := HandleHeldFunds(b, Aggregation, e.account, caller, e.reserve.aggregate, p.aggregation);
    SettlementBounds(b, Aggregation, e.account, caller, e.reserve.aggregate, p.aggregation);
    SettlementBounds(paid, Delivery, e.account, Some(owner), e.reserve.delivery, p.delivery);
  }

  /** Settling an aggregation conserves the total balance, whoever the submitters, the caller
      and the delivery owner are and however far the moves go, and takes no more than the
      statements' own reserves. */
  lemma {:induction false} PayBounds(b: Balances, es: seq<StatementEntry>, i: nat, caller: Option<Account>,
                                     owner: Account, pay: nat -> Payment)
    requires i <= |es|
    ensures var after := PayFrom(b, es, i, caller, owner, pay);
            after.Total() == b.Total() && after.held <= b.held <= after.held + UnitsOf(es[i..])
    decreases |es| - i
  {
    hide PayStatement, Units;
    if i < |es| {
      var paid := PayStatement(b, es[i], caller, owner, pay(i));
      PayStatementBounds(b, es[i], caller, owner, pay(i));
      PayBounds(paid, es, i + 1, caller, owner, pay);
      assert es[i..][1..] == es[i + 1..];
    }
  }

  /** Who gets what when moves are full: the aggregation reserve goes to the caller, the delivery
      reserve to the delivery owner, and each falls back to the submitter when there is no
      caller account or the transfer is refused. */
  function Payout(es: seq<StatementEntry>, i: nat, caller: Option<Account>, owner: Account,
                  pay: nat -> Payment): multiset<Account>
    requires i <= |es|
    decreases |es| - i
  {
    if i == |es| then multiset{}
    else
      multiset{}[Payee(es[i].account, caller, pay(i).aggregation) := es[i].reserve.aggregate]
      + multiset{}[Payee(es[i].account, Some(owner), pay(i).delivery) := es[i].reserve.delivery]
      + Payout(es, i + 1, caller, owner, pay)
  }

  lemma PayStatementFull(b: Balances, e: StatementEntry, caller: Option<Account>, owner: Account, p: Payment)
    requires p.Full() && Units(e) <= b.held
    ensures var after := PayStatement(b, e, caller, owner, p);
            && after.held + Units(e) == b.held
            && after.free == b.free + multiset{}[Payee(e.account, caller, p.aggregation) := e.reserve.aggregate]
                                    + multiset{}[Payee(e.account, Some(owner), p.delivery) := e.reserve.delivery]
  {
    hide HandleHeldFunds;
    assert Units(e)[(e.account, Aggregation)] == e.reserve.aggregate;
    assert Units(e)[(e.account, Delivery)] == e.reserve.delivery;
    var paid := HandleHeldFunds(b, Aggregation, e.account, caller, e.reserve.aggregate, p.aggregation);
    FullSettlement(b, Aggregation, e.account, caller, e.reserve.aggregate, p.aggregation);
    FullSettlement(paid, Delivery, e.account, Some(owner), e.reserve.delivery, p.delivery);
  }

  lemma {:induction false} PayFull(b: Balances, es: seq<StatementEntry>, i: nat, caller: Option<Account>,
                                   owner: Account, pay: nat -> Payment)
    requires i <= |es| && (forall k: nat :: pay(k).Full()) && UnitsOf(es[i..]) <= b.held
    ensures var after := PayFrom(b, es, i, caller, owner, pay);
            after.held + UnitsOf(es[i..]) == b.held && after.free == b.free + Payout(es, i, caller, owner, pay)
    decreases |es| - i
  {
    hide PayStatement, Units, Payee;
    if i < |es| {
      assert es[i..][1..] == es[i + 1..];
      var now, later := Units(es[i]), UnitsOf(es[i + 1..]);
      assert UnitsOf(es[i..]) == now + later;
      PayStatementFull(b, es[i], caller, owner, pay(i));
      var paid := PayStatement(b, es[i], caller, owner, pay(i));
      Cancel(paid.held, now, later, b.held);
      PayFull(paid, es, i + 1, caller, owner, pay);
    }
  }

  /* ---------- one call ---------- */

  lemma AcceptUnits(cfg: Config, d: nat, dom: Domain, archive: Archive, e: StatementEntry)
    requires Shaped(cfg, dom) && Contiguous(d, dom.shouldPublish, archive, Frontier(dom))
    requires dom.state == Ready && dom.CanAddStatement()
    ensures AppendStatement(cfg, dom, e).0.Some?
    ensures DomainUnits(AppendStatement(cfg, dom, e).0.value.0) == DomainUnits(dom) + Units(e)
  {
    hide AppendStatement, Units, Contiguous;
    AppendEffect(cfg, d, dom, archive, e);
    var after := AppendStatement(cfg, dom, e).0.value.0;
    UnitsConcat(dom.next.statements, [e]);
    assert UnitsOf([e]) == Units(e);
    if |dom.next.statements| + 1 >= dom.next.size {
      QueueSame(dom.shouldPublish, after.shouldPublish, Frontier(dom));
    }
  }

  lemma FrontierFree(d: nat, q: map<nat, AggregationEntry>, archive: Archive, n: nat)
    requires Contiguous(d, q, archive, n)
    ensures forall id :: id in q ==> id < n
  {
  }

  lemma NoUnits()
    ensures UnitsOf([]) == multiset{}
  {
  }

  lemma TakeUnits(cfg: Config, d: nat, dom: Domain, archive: Archive, id: nat)
    requires Shaped(cfg, dom) && Contiguous(d, dom.shouldPublish, archive, Frontier(dom))
    requires TakeAggregation(dom, id).2.Some?
    ensures var (taken, _, found) := TakeAggregation(dom, id);
            DomainUnits(dom) == DomainUnits(taken) + UnitsOf(found.value.statements)
  {
    hide TakeAggregation, UnitsOf, Contiguous, Shaped;
    FrontierFree(d, dom.shouldPublish, archive, Frontier(dom));
    TakeEffect(cfg, d, dom, archive, id);
    NoUnits();
    if id in dom.shouldPublish {
      QueueTake(dom.shouldPublish, id, Frontier(dom));
      Swap(QueueUnits(dom.shouldPublish - {id}, Frontier(dom)), UnitsOf(dom.shouldPublish[id].statements),
           UnitsOf(dom.next.statements));
    } else {
      assert dom.shouldPublish - {id} == dom.shouldPublish;
    }
  }

  lemma HoldUnits(dom: Domain, allowlist: Allowlist)
    ensures DomainUnits(HandleHoldState(dom, allowlist).0) == DomainUnits(dom)
  {
  }

  lemma AcceptPending(cfg: Config, s: State, d: nat, e: StatementEntry)
    requires Core(cfg, s) && d in s.domains && s.domains[d].state == Ready && s.domains[d].CanAddStatement()
    ensures AcceptStatement(cfg, s, d, e).Done?
    ensures var t := AcceptStatement(cfg, s, d, e).state;
            && t.balances == s.balances && t.nextDomainId == s.nextDomainId
            && Pending(t.domains, t.nextDomainId) == Pending(s.domains, s.nextDomainId) + Units(e)
  {
    hide Core, AppendStatement, HandleHoldState, DomainUnits, Pending, Units, Shaped, Contiguous, Staged;
    LiveDomain(cfg, s, d);
    var dom := s.domains[d];
    AcceptUnits(cfg, d, dom, s.archive, e);
    var appended := AppendStatement(cfg, dom, e).0.value.0;
    var held := HandleHoldState(appended, s.allowlist).0;
    HoldUnits(appended, s.allowlist);
    PendingUpdate(s.domains, d, held, s.nextDomainId);
    Replaced(Pending(s.domains, s.nextDomainId), Pending(s.domains[d := held], s.nextDomainId), DomainUnits(dom),
             Units(e));
  }

  lemma Replaced<T>(before: multiset<T>, after: multiset<T>, part: multiset<T>, x: multiset<T>)
    requires before + (part + x) == after + part
    ensures after == before + x
  {
    forall k ensures after[k] == (before + x)[k] {
      assert (before + (part + x))[k] == (after + part)[k];
    }
  }

  lemma ReserveHeld(b: Balances, dom: Domain, who: Account, q: Quote, statement: Digest)
    requires ReserveCurrency(b, dom, who, q).Reserved?
    ensures var r := ReserveCurrency(b, dom, who, q);
            r.balances.held == b.held + Units(StatementEntry(who, r.reserve, statement))
  {
    hide Share;
  }

  lemma SubmitFunds(cfg: Config, s: State, account: Option<Account>, domain: Option<nat>, statement: Digest, q: Quote)
    requires Core(cfg, s) && OnProofVerified(cfg, s, account, domain, statement, q).Done?
    ensures var t := OnProofVerified(cfg, s, account, domain, statement, q).state;
            (Covered(s) ==> Covered(t)) && (Exact(s) ==> Exact(t))
  {
    hide Core, AcceptStatement, ReserveCurrency, MayAddProof, Pending, Units;
    var t := OnProofVerified(cfg, s, account, domain, statement, q).state;
    if account.Some? && domain.Some? && domain.value in s.domains {
      var d, who := domain.value, account.value;
      var dom := s.domains[d];
      if dom.state == Ready && dom.CanAddStatement() && MayAddProof(dom, s.allowlist, who) == Some(true) {
        SizePositive(cfg, s, d);
        ReserveSafe(s.balances, dom, who, q);
        var r := ReserveCurrency(s.balances, dom, who, q);
        if r.Reserved? {
          var funded, e := s.(balances := r.balances), StatementEntry(who, r.reserve, statement);
          ReserveHeld(s.balances, dom, who, q, statement);
          assert funded.events == s.events + [];
          QuietStep(cfg, s, funded, []);
          AcceptPending(cfg, funded, d, e);
        }
      }
    }
  }

  lemma SizePositive(cfg: Config, s: State, d: nat)
    requires Core(cfg, s) && d in s.domains
    ensures 1 <= s.domains[d].next.size
  {
    hide Contiguous, Log, Receipted, NewProofs, RemovedOk;
    LiveDomain(cfg, s, d);
  }

  lemma PublishFunds(cfg: Config, s: State, origin: Option<User>, d: nat, id: nat, pay: nat -> Payment,
                     dispatched: bool)
    requires Core(cfg, s) && Publish(cfg, s, origin, d, id, pay, dispatched).Done?
    ensures var t := Publish(cfg, s, origin, d, id, pay, dispatched).state;
            && (Covered(s) ==> Covered(t))
            && (Exact(s) && (forall k: nat :: pay(k).Full()) ==> Exact(t))
  {
    hide Core, TakeAggregation, HandleHoldState, DomainUnits, Pending, Units, UnitsOf, Shaped, Contiguous, Staged,
         PayFrom, Receipt;
    LiveDomain(cfg, s, d);
    var dom := s.domains[d];
    TakeUnits(cfg, d, dom, s.archive, id);
    var (taken, _, found) := TakeAggregation(dom, id);
    var held := HandleHoldState(taken, s.allowlist).0;
    HoldUnits(taken, s.allowlist);
    PendingUpdate(s.domains, d, held, s.nextDomainId);
    var es, caller, owner := found.value.statements, origin.value.AccountId(), dom.delivery.owner;
    var before, after := Pending(s.domains, s.nextDomainId), Pending(s.domains[d := held], s.nextDomainId);
    Released(before, after, DomainUnits(held), UnitsOf(es));
    assert es[0..] == es;
    PayBounds(s.balances, es, 0, caller, owner, pay);
    var paid := PayFrom(s.balances, es, 0, caller, owner, pay);
    if Covered(s) { Cancel2(paid.held, UnitsOf(es), after, s.balances.held); }
    if Exact(s) && forall k: nat :: pay(k).Full() {
      PayFull(s.balances, es, 0, caller, owner, pay);
      Cancel3(paid.held, after, UnitsOf(es));
    }
  }

  lemma Released<T>(before: multiset<T>, after: multiset<T>, part: multiset<T>, x: multiset<T>)
    requires before + part == after + (part + x)
    ensures before == after + x
  {
    forall k ensures before[k] == (after + x)[k] {
      assert (before + part)[k] == (after + (part + x))[k];
    }
  }

  lemma Cancel2<T>(paid: multiset<T>, x: multiset<T>, after: multiset<T>, held: multiset<T>)
    requires after + x <= held <= paid + x
    ensures after <= paid
  {
    forall k ensures after[k] <= paid[k] {
      assert (after + x)[k] <= held[k] <= (paid + x)[k];
    }
  }

  lemma Cancel3<T>(a: multiset<T>, b: multiset<T>, x: multiset<T>)
    requires a + x == b + x
    ensures a == b
  {
    forall k ensures a[k] == b[k] {
      assert (a + x)[k] == (b + x)[k];
    }
  }

  /** A call during which no best-effort move is cut short and no refund fails. */
  ghost predicate FullCall(c: Call) {
    c.Aggregate? ==> forall k: nat :: c.pay(k).Full()
  }

  lemma RelabelFunds(cfg: Config, s: State, t: State, d: nat, dom: Domain)
    requires Core(cfg, s) && d in s.domains && t.nextDomainId == s.nextDomainId && t.balances == s.balances
    requires t.domains == s.domains[d := dom] && dom.shouldPublish == s.domains[d].shouldPublish
    requires dom.next == s.domains[d].next
    ensures Pending(t.domains, t.nextDomainId) == Pending(s.domains, s.nextDomainId)
  {
    hide Core, Pending, QueueUnits, UnitsOf;
    LiveDomain(cfg, s, d);
    PendingUpdate(s.domains, d, dom, s.nextDomainId);
    Cancel3(Pending(t.domains, t.nextDomainId), Pending(s.domains, s.nextDomainId), DomainUnits(dom));
  }

  lemma RegisterFunds(cfg: Config, s: State, c: Call)
    requires Core(cfg, s) && c.RegisterDomain? && Apply(cfg, s, c).Done?
    ensures var t := Apply(cfg, s, c).state;
            t.balances == s.balances && Pending(t.domains, t.nextDomainId) == Pending(s.domains, s.nextDomainId)
  {
    hide Core, ComputeEncodedSize, DomainUnits;
    var t := Apply(cfg, s, c).state;
    var dom := t.domains[s.nextDomainId];
    assert dom.shouldPublish == map[] && dom.next.statements == [];
    NothingPending(dom);
    PendingSame(s.domains, t.domains, s.nextDomainId);
  }

  lemma NothingPending(dom: Domain)
    requires dom.shouldPublish == map[] && dom.next.statements == []
    ensures DomainUnits(dom) == multiset{}
  {
    EmptyQueue(Frontier(dom));
  }

  lemma UnregisterFunds(cfg: Config, s: State, origin: Option<User>, d: nat)
    requires Core(cfg, s) && Unregister(s, origin, d).Done?
    ensures var t := Unregister(s, origin, d).state;
            t.balances == s.balances && Pending(t.domains, t.nextDomainId) == Pending(s.domains, s.nextDomainId)
  {
    hide Core, Pending, DomainUnits, Shaped, Contiguous;
    LiveDomain(cfg, s, d);
    NothingPending(s.domains[d]);
    PendingRemove(s.domains, d, s.nextDomainId);
  }

  /** Every call keeps pending statements covered; with full moves nothing else stays on hold. */
  lemma CallKeepsFunds(cfg: Config, s: State, c: Call)
    requires Core(cfg, s)
    ensures Covered(s) ==> Covered(Next(cfg, s, c))
    ensures Exact(s) && FullCall(c) ==> Exact(Next(cfg, s, c))
  {
    hide Core, OnProofVerified, Publish, Register, Pending, Unregister;
    if Apply(cfg, s, c).Done? {
      var t := Apply(cfg, s, c).state;
      match c
      case Submit(account, domain, statement, quote) => SubmitFunds(cfg, s, account, domain, statement, quote);
      case Aggregate(origin, d, id, pay, dispatched) => PublishFunds(cfg, s, origin, d, id, pay, dispatched);
      case RegisterDomain(_, _, _, _, _, _, _, _, _) => RegisterFunds(cfg, s, c);
      case Halt(origin, d) => RelabelFunds(cfg, s, t, d, t.domains[d]);
      case UnregisterDomain(origin, d) => UnregisterFunds(cfg, s, origin, d);
      case SetFee(origin, d, fee, tip) => RelabelFunds(cfg, s, t, d, t.domains[d]);
      case AddSubmitters(origin, d, submitters, updated) => RelabelFunds(cfg, s, t, d, t.domains[d]);
      case DropSubmitters(origin, d, submitters, updated) => RelabelFunds(cfg, s, t, d, t.domains[d]);
      case OnInitialize =>
      case OtherPallets(free) =>
    }
  }
}
