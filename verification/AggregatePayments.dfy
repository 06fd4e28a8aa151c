/** Ledger agreement and payouts over every run. */
module AggregatePayments {
  import opened Prelude
  import opened Ledger
  import opened AggregateData
  import opened AggregateSpec
  import opened AggregateInvariant
  import opened AggregatePreservation
  import opened AggregateFunds
  import opened AggregateTheorems

  /* ---------- ledger agreement ---------- */

  lemma {:induction false} FullRunExact(cfg: Config, s: State, calls: seq<Call>)
    requires Core(cfg, s) && Exact(s) && forall i :: 0 <= i < |calls| ==> FullCall(calls[i])
    ensures Exact(Run(cfg, s, calls))
    decreases |calls|
  {
    hide Core, Exact, Next, FullCall;
    if calls != [] {
      CallKeepsCore(cfg, s, calls[0]);
      CallKeepsFunds(cfg, s, calls[0]);
      FullRunExact(cfg, Next(cfg, s, calls[0]), calls[1..]);
    }
  }

  /** In every reachable state each account's holds cover the reserves of its pending statements
      over all domains, for both reasons and through failed reservations, fee changes and
      best-effort moves cut short anywhere. If none was cut short they are equal. */
  lemma HoldsCoverPending(cfg: Config, free: multiset<Account>, calls: seq<Call>)
    ensures var s := After(cfg, free, calls);
            && Pending(s.domains, s.nextDomainId) <= s.balances.held
            && ((forall i :: 0 <= i < |calls| ==> FullCall(calls[i])) ==>
                  Pending(s.domains, s.nextDomainId) == s.balances.held)
  {
    hide Core, TicketsOk, Run, FullCall, Pending;
    Reachable(cfg, free, calls);
    if forall i :: 0 <= i < |calls| ==> FullCall(calls[i]) {
      GenesisInv(cfg, free);
      FullRunExact(cfg, Genesis(free), calls);
    }
  }

  /* ---------- payouts ---------- */

  function TotalAggregate(es: seq<StatementEntry>): nat {
    if es == [] then 0 else es[0].reserve.aggregate + TotalAggregate(es[1..])
  }

  function TotalDelivery(es: seq<StatementEntry>): nat {
    if es == [] then 0 else es[0].reserve.delivery + TotalDelivery(es[1..])
  }

  /** The submitters' own aggregation reserves. */
  function Refund(es: seq<StatementEntry>): multiset<Account> {
    if es == [] then multiset{} else multiset{}[es[0].account := es[0].reserve.aggregate] + Refund(es[1..])
  }

  /** With every transfer granted, a caller's account receives all aggregation reserves and the
      delivery owner all delivery reserves; without a caller account the submitters get the
      aggregation reserves back. */
  lemma {:induction false} GrantedPayout(es: seq<StatementEntry>, i: nat, caller: Option<Account>, owner: Account,
                                         pay: nat -> Payment)
    requires i <= |es| && forall k: nat :: pay(k).aggregation.transfer.Whole? && pay(k).delivery.transfer.Whole?
    ensures Payout(es, i, caller, owner, pay)
         == (if caller.Some? then multiset{}[caller.value := TotalAggregate(es[i..])] else Refund(es[i..]))
          + multiset{}[owner := TotalDelivery(es[i..])]
    decreases |es| - i
  {
    if i == |es| {
      assert es[i..] == [];
    } else {
      assert es[i..][1..] == es[i + 1..];
      GrantedPayout(es, i + 1, caller, owner, pay);
    }
  }

  /** Publishing conserves the total of free and held balances whatever the caller, the
      submitters, the delivery owner and the ledger's answers. */
  lemma PublishConserves(cfg: Config, s: State, origin: Option<User>, d: nat, id: nat, pay: nat -> Payment,
                         dispatched: bool)
    requires Publish(cfg, s, origin, d, id, pay, dispatched).Done?
    ensures Publish(cfg, s, origin, d, id, pay, dispatched).state.balances.Total() == s.balances.Total()
  {
    hide HandleHoldState, TakeAggregation, Receipt, PayFrom;
    PayBounds(s.balances, TakeAggregation(s.domains[d], id).2.value.statements, 0, origin.value.AccountId(),
              s.domains[d].delivery.owner, pay);
  }

  lemma PublishSettles(cfg: Config, s: State, origin: Option<User>, d: nat, id: nat, pay: nat -> Payment,
                       dispatched: bool)
    requires Core(cfg, s) && Covered(s) && Publish(cfg, s, origin, d, id, pay, dispatched).Done?
    requires forall k: nat :: pay(k).Full()
    ensures var t := Publish(cfg, s, origin, d, id, pay, dispatched).state;
            && (d, id) in t.archive
            && var es := t.archive[(d, id)].statements;
               && t.balances.held + UnitsOf(es) == s.balances.held
               && t.balances.free == s.balances.free
                   + Payout(es, 0, origin.value.AccountId(), s.domains[d].delivery.owner, pay)
  {
    hide Core, HandleHoldState, TakeAggregation, Receipt, PayFrom, Pending, UnitsOf, Shaped, Contiguous, Staged, Payout,
         DomainUnits;
    LiveDomain(cfg, s, d);
    TakeUnits(cfg, d, s.domains[d], s.archive, id);
    var es := TakeAggregation(s.domains[d], id).2.value.statements;
    assert es[0..] == es;
    PendingIncludes(s.domains, d, s.nextDomainId);
    PayFull(s.balances, es, 0, origin.value.AccountId(), s.domains[d].delivery.owner, pay);
  }

  lemma {:induction false} PendingIncludes(ds: map<nat, Domain>, d: nat, n: nat)
    requires d in ds && d < n
    ensures DomainUnits(ds[d]) <= Pending(ds, n)
  {
    hide DomainUnits;
    if d < n - 1 { PendingIncludes(ds, d, n - 1); }
  }

  function ReserveFor(e: StatementEntry, reason: Reason): nat {
    match reason
    case Aggregation => e.reserve.aggregate
    case Delivery => e.reserve.delivery
  }

  /** Whether the ledger lets the `k`-th statement's payment for a reason go through. */
  predicate LetsPass(p: Payment, reason: Reason) {
    match reason
    case Aggregation => !p.aggregation.transfer.Refused?
    case Delivery => !p.delivery.transfer.Refused?
  }

  /** The sum of the reserves whose payment goes through, from the `i`-th statement on. */
  function Passed(es: seq<StatementEntry>, i: nat, reason: Reason, pay: nat -> Payment): nat
    requires i <= |es|
    decreases |es| - i
  {
    if i == |es| then 0
    else (if LetsPass(pay(i), reason) then ReserveFor(es[i], reason) else 0) + Passed(es, i + 1, reason, pay)
  }

  /** What goes back to the submitters, each their own: the reserves whose payment is refused or has
      nobody to go to. */
  function Returned(es: seq<StatementEntry>, i: nat, reason: Reason, somebody: bool,
                    pay: nat -> Payment): multiset<Account>
    requires i <= |es|
    decreases |es| - i
  {
    if i == |es| then multiset{}
    else
      (if somebody && LetsPass(pay(i), reason) then multiset{}
       else multiset{}[es[i].account := ReserveFor(es[i], reason)])
      + Returned(es, i + 1, reason, somebody, pay)
  }

  lemma SumSplits(caller: Account, x: nat, y: nat)
    ensures multiset{}[caller := x] + multiset{}[caller := y] == multiset{}[caller := x + y]
  {
  }

  /** What one reason pays out in all. */
  ghost function Slice(es: seq<StatementEntry>, i: nat, reason: Reason, dest: Option<Account>,
                       pay: nat -> Payment): multiset<Account>
    requires i <= |es|
  {
    (if dest.Some? then multiset{}[dest.value := Passed(es, i, reason, pay)] else multiset{})
    + Returned(es, i, reason, dest.Some?, pay)
  }

  lemma SliceStep(es: seq<StatementEntry>, i: nat, reason: Reason, dest: Option<Account>, pay: nat -> Payment)
    requires i < |es|
    ensures Slice(es, i, reason, dest, pay)
         == multiset{}[(if dest.Some? && LetsPass(pay(i), reason) then dest.value else es[i].account)
                       := ReserveFor(es[i], reason)]
          + Slice(es, i + 1, reason, dest, pay)
  {
    hide LetsPass, ReserveFor;
    if dest.Some? && LetsPass(pay(i), reason) {
      SumSplits(dest.value, ReserveFor(es[i], reason), Passed(es, i + 1, reason, pay));
    }
  }

  lemma FourParts<T>(a: multiset<T>, b: multiset<T>, c: multiset<T>, d: multiset<T>)
    ensures a + b + (c + d) == (a + c) + (b + d)
  {
  }

  lemma {:induction false} PayoutSplits(es: seq<StatementEntry>, i: nat, caller: Option<Account>, owner: Account,
                                        pay: nat -> Payment)
    requires i <= |es|
    ensures Payout(es, i, caller, owner, pay)
              == Slice(es, i, Aggregation, caller, pay) + Slice(es, i, Delivery, Some(owner), pay)
    decreases |es| - i
  {
    hide Slice;
    if i == |es| {
      NoSlice(es, Aggregation, caller, pay);
      NoSlice(es, Delivery, Some(owner), pay);
    } else {
      PayoutSplits(es, i + 1, caller, owner, pay);
      SliceStep(es, i, Aggregation, caller, pay);
      SliceStep(es, i, Delivery, Some(owner), pay);
      var a := multiset{}[Payee(es[i].account, caller, pay(i).aggregation) := es[i].reserve.aggregate];
      var b := multiset{}[Payee(es[i].account, Some(owner), pay(i).delivery) := es[i].reserve.delivery];
      assert Payout(es, i, caller, owner, pay) == a + b + Payout(es, i + 1, caller, owner, pay);
      FourParts(a, b, Slice(es, i + 1, Aggregation, caller, pay), Slice(es, i + 1, Delivery, Some(owner), pay));
    }
  }

  lemma NoSlice(es: seq<StatementEntry>, reason: Reason, dest: Option<Account>, pay: nat -> Payment)
    ensures Slice(es, |es|, reason, dest, pay) == multiset{}
  {
  }

  /** In every reachable state, publishing with full moves releases exactly the reserves of the
      aggregation's statements and pays them out in full. The caller's account gets the
      aggregation reserves whose transfer goes through, the delivery owner the delivery
      reserves whose transfer goes through, and every submitter gets their own reserves back
      where the transfer is refused or, for a manager's call, there is no account to pay. */
  lemma PublishPays(cfg: Config, free: multiset<Account>, calls: seq<Call>, who: User, d: nat, id: nat,
                    pay: nat -> Payment)
    requires Publish(cfg, After(cfg, free, calls), Some(who), d, id, pay, true).Done?
    requires forall k: nat :: pay(k).Full()
    ensures var s := After(cfg, free, calls);
            var t := Publish(cfg, s, Some(who), d, id, pay, true).state;
            && (d, id) in t.archive
            && var es, caller, owner := t.archive[(d, id)].statements, who.AccountId(), s.domains[d].delivery.owner;
               && t.balances.held + UnitsOf(es) == s.balances.held
               && t.balances.free
                  == s.balances.free
                   + ((if caller.Some? then multiset{}[caller.value := Passed(es, 0, Aggregation, pay)] else multiset{})
                      + Returned(es, 0, Aggregation, caller.Some?, pay))
                   + (multiset{}[owner := Passed(es, 0, Delivery, pay)] + Returned(es, 0, Delivery, true, pay))
  {
    hide After, Core, TicketsOk, HandleHoldState, TakeAggregation, Receipt, PayFrom, UnitsOf, Payout, Passed, Returned;
    Reachable(cfg, free, calls);
    var s := After(cfg, free, calls);
    PublishSettles(cfg, s, Some(who), d, id, pay, true);
    var es := Publish(cfg, s, Some(who), d, id, pay, true).state.archive[(d, id)].statements;
    var owner := s.domains[d].delivery.owner;
    PayoutSplits(es, 0, who.AccountId(), owner, pay);
    AddAssociates(s.balances.free, Slice(es, 0, Aggregation, who.AccountId(), pay),
                  Slice(es, 0, Delivery, Some(owner), pay));
  }

  /** When every transfer goes through: the caller gets the sum of the aggregation reserves (or each
      submitter gets their own back, for a manager's call), the delivery owner the sum of the
      delivery reserves. */
  lemma PublishPaysGranted(cfg: Config, free: multiset<Account>, calls: seq<Call>, who: User, d: nat, id: nat,
                           pay: nat -> Payment)
    requires Publish(cfg, After(cfg, free, calls), Some(who), d, id, pay, true).Done?
    requires forall k: nat :: pay(k).Full() && pay(k).aggregation.transfer.Whole? && pay(k).delivery.transfer.Whole?
    ensures var s := After(cfg, free, calls);
            var t := Publish(cfg, s, Some(who), d, id, pay, true).state;
            && (d, id) in t.archive
            && var es := t.archive[(d, id)].statements;
               && t.balances.held + UnitsOf(es) == s.balances.held
               && t.balances.free
                  == s.balances.free
                   + (if who.Signer? then multiset{}[who.id := TotalAggregate(es)] else Refund(es))
                   + multiset{}[s.domains[d].delivery.owner := TotalDelivery(es)]
  {
    hide After, Core, TicketsOk, HandleHoldState, TakeAggregation, Receipt, PayFrom, UnitsOf, Payout, TotalAggregate,
         TotalDelivery, Refund;
    Reachable(cfg, free, calls);
    var s := After(cfg, free, calls);
    PublishSettles(cfg, s, Some(who), d, id, pay, true);
    var es := Publish(cfg, s, Some(who), d, id, pay, true).state.archive[(d, id)].statements;
    GrantedPayout(es, 0, who.AccountId(), s.domains[d].delivery.owner, pay);
    assert es[0..] == es;
    AddAssociates(s.balances.free, if who.Signer? then multiset{}[who.id := TotalAggregate(es)] else Refund(es),
                  multiset{}[s.domains[d].delivery.owner := TotalDelivery(es)]);
  }

  lemma AddAssociates<T>(a: multiset<T>, b: multiset<T>, c: multiset<T>)
    ensures a + (b + c) == a + b + c
  {
  }
}
