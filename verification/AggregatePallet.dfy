/**
 The pallet itself: storage that calls change in place. Every call is proved to do what the
 state machine says and to keep its invariant, so whatever holds over every run of the state
 machine holds of this object.
 */
module AggregatePallet {
  import opened Prelude
  import opened Ledger
  import opened Merkle
  import opened AggregateData
  import opened AggregateEncoding
  import Spec = AggregateSpec
  import opened AggregateInvariant
  import opened AggregatePreservation
  import opened AggregateFunds
  import opened AggregateTheorems
  import opened AggregateSafety

  /** The domain a call has taken out of storage to change, and the events it deposits meanwhile. */
  class DomainCell {
    var entry: Domain
    var emitted: seq<Event>

    constructor (entry: Domain)
      ensures this.entry == entry && emitted == []
    {
      this.entry := entry;
      emitted := [];
    }

    method UpdateHoldState(allowlist: Allowlist)
      modifies this`entry
      ensures entry == Spec.UpdateHoldState(old(entry), allowlist)
    {
      var listed := exists e :: e in allowlist && e.0 == entry.id;
      assert listed <==> Spec.Submitters(allowlist, entry.id) != {} by {
        if listed {
          var e :| e in allowlist && e.0 == entry.id;
          assert e.1 in Spec.Submitters(allowlist, entry.id);
        }
      }
      if entry.shouldPublish == map[] && entry.next.statements == []
         && (entry.proofRules != OnlyAllowlisted || !listed) {
        entry := entry.(state := Removable);
      } else {
        entry := entry.(state := Hold);
      }
    }

    method HandleHoldState(allowlist: Allowlist)
      modifies this
      ensures var (held, es) := Spec.HandleHoldState(old(entry), allowlist);
              entry == held && emitted == old(emitted) + es
    {
      if entry.state == Ready {
        return;
      }
      var before := entry.state;
      UpdateHoldState(allowlist);
      if before != entry.state {
        emitted := emitted + [DomainStateChanged(entry.id, entry.state)];
      }
    }

    method PopNextAggregation() returns (closed: Option<AggregationEntry>)
      modifies this
      ensures var (popped, es, c) := Spec.PopNext(old(entry));
              entry == popped && emitted == old(emitted) + es && closed == c
    {
      if entry.next.statements == [] {
        return None;
      }
      closed := Some(entry.next);
      if entry.next.id + 1 <= U64_MAX {
        entry := entry.(next := AggregationEntry(entry.next.id + 1, entry.next.size, []));
      } else {
        entry := entry.(state := Hold);
        emitted := emitted + [DomainStateChanged(entry.id, entry.state)];
        entry := entry.(next := AggregationEntry(0, entry.next.size, []));
      }
    }

    method TakeAggregation(id: nat) returns (found: Option<AggregationEntry>)
      modifies this
      ensures var (taken, es, f) := Spec.TakeAggregation(old(entry), id);
              entry == taken && emitted == old(emitted) + es && found == f
    {
      if entry.next.id == id {
        found := PopNextAggregation();
      } else if id in entry.shouldPublish {
        found := Some(entry.shouldPublish[id]);
        entry := entry.(shouldPublish := entry.shouldPublish - {id});
      } else {
        found := None;
      }
    }

    /** The precondition is what the code expects of the bounded vector. */
    method AppendStatement(capacity: nat, e: StatementEntry) returns (toPublish: Option<AggregationEntry>)
      requires |entry.next.statements| < capacity
      modifies this
      ensures var full := old(entry).(next := old(entry).next.(statements := old(entry).next.statements + [e]));
              if |full.next.statements| < full.next.size
              then entry == full && emitted == old(emitted) && toPublish == None
              else
                var (popped, es, closed) := Spec.PopNext(full);
                entry == popped && emitted == old(emitted) + es && toPublish == closed
    {
      entry := entry.(next := entry.next.(statements := entry.next.statements + [e]));
      if entry.next.size <= |entry.next.statements| {
        toPublish := PopNextAggregation();
      } else {
        toPublish := None;
      }
    }

    /** The precondition is what the code expects of the bounded map. */
    method AvailableAggregation(capacity: nat, a: AggregationEntry)
      requires a.id in entry.shouldPublish || |entry.shouldPublish| < capacity
      modifies this
      ensures entry == old(entry).(shouldPublish := old(entry).shouldPublish[a.id := a])
      ensures emitted == old(emitted) + [AggregationComplete(entry.id, a.id)]
                         + if |entry.shouldPublish| >= entry.publishQueueSize then [DomainFull(entry.id)] else []
    {
      emitted := emitted + [AggregationComplete(entry.id, a.id)];
      entry := entry.(shouldPublish := entry.shouldPublish[a.id := a]);
      if |entry.shouldPublish| >= entry.publishQueueSize {
        emitted := emitted + [DomainFull(entry.id)];
      }
    }

    /** Add to (or take from) the allowlist ticket's count, if the domain has a ticket. */
    method ChangeFootprintCount(amount: u32, grow: bool, updated: bool) returns (failed: Option<Error>)
      modifies this`entry
      ensures var count := Spec.TicketCount(old(entry)) + if grow then amount as int else -(amount as int);
              match Spec.Recount(old(entry), count, updated)
              case Some(counted) => failed == None && entry == counted
              case None => failed == Some(Spec.RecountError(count))
    {
      if entry.ticketAllowlist.None? {
        return None;
      }
      var t := entry.ticketAllowlist.value;
      var count: int := if grow then t.count + amount else t.count - amount;
      if count < 0 || count > U32_MAX {
        return Some(InvalidDomainParams);
      }
      if !updated {
        return Some(ConsiderationFailed);
      }
      entry := entry.(ticketAllowlist := Some(CountableTicket(Ticket(t.ticket.payer, count, 0), count)));
      failed := None;
    }
  }

  lemma IdMatches(cfg: Spec.Config, s: Spec.State, d: nat)
    requires Inv(cfg, s)
    ensures d in s.domains ==> s.domains[d].id == d
  {
    hide TicketsOk, Covered, LogsOk, Receipted, Contiguous, Shaped, Staged;
    if d in s.domains { LiveDomain(cfg, s, d); }
  }

  lemma NoEntries(d: nat, submitters: seq<Account>)
    ensures Spec.Entries(d, submitters[..0]) == {}
  {
  }

  lemma OneMoreEntry(d: nat, submitters: seq<Account>, i: nat)
    requires i < |submitters|
    ensures Spec.Entries(d, submitters[..i + 1]) == Spec.Entries(d, submitters[..i]) + {(d, submitters[i])}
  {
    assert submitters[..i + 1] == submitters[..i] + [submitters[i]];
  }

  lemma JoinEvents(seen: seq<Event>, es: seq<Event>, hs: seq<Event>, last: Event)
    ensures seen + ([] + es + hs) + [last] == seen + (es + hs + [last])
  {
    assert [] + es == es;
  }

  lemma DeliveryKept(dom: Domain, id: nat)
    ensures Spec.TakeAggregation(dom, id).0.delivery == dom.delivery
  {
  }

  class Pallet {
    const cfg: Spec.Config
    var nextDomainId: nat
    var domains: map<nat, Domain>
    var allowlist: Allowlist
    var published: seq<(nat, AggregationEntry)>
    var balances: Balances
    var events: seq<Event>
    ghost var archive: Archive
    ghost var removed: map<nat, Domain>
    ghost var refunds: seq<(Ticket, Account)>

    ghost function View(): Spec.State
      reads this
    {
      Spec.State(nextDomainId, domains, allowlist, published, balances, events, archive, removed, refunds)
    }

    ghost predicate Valid()
      reads this
    {
      Inv(cfg, View())
    }

    constructor (cfg: Spec.Config, free: multiset<Account>)
      ensures this.cfg == cfg && Valid() && View() == Spec.Genesis(free)
    {
      this.cfg := cfg;
      nextDomainId, domains, allowlist, published, balances, events := 0, map[], {}, [], Balances(free, multiset{}), [];
      archive, removed, refunds := map[], map[], [];
      new;
      GenesisInv(cfg, free);
    }

    /** Reserve both fees, undoing the first hold if the second one is refused. */
    method ReserveCurrency(dom: Domain, who: Account, q: Spec.Quote) returns (reserve: Option<Reserve>)
      requires dom.next.size >= 1
      modifies this`balances
      ensures match Spec.ReserveCurrency(old(balances), dom, who, q)
              case Reserved(r, b) => reserve == Some(r) && balances == b
              case Unfunded(b) => reserve == None && balances == b == old(balances)
              case ReservePanic(_) => false
    {
      hide Spec.Share;
      ReserveSafe(balances, dom, who, q);
      var aggregate := Spec.Share(q.PublishFee(), dom.next.size);
      var delivery := Spec.Share(dom.delivery.TotalFee(), dom.next.size);
      var first := Ledger.Hold(balances, Aggregation, who, aggregate, q.grantAggregation);
      if first.None? {
        return None;
      }
      balances := first.value;
      var second := Ledger.Hold(balances, Delivery, who, delivery, q.grantDelivery);
      if second.None? {
        balances := ReleaseExact(balances, Aggregation, who, aggregate).value;
        return None;
      }
      balances := second.value;
      reserve := Some(Reserve(aggregate, delivery));
    }

    /** Append an authorized and funded statement to its domain. */
    method AcceptStatement(d: nat, e: StatementEntry)
      requires d in domains && |domains[d].next.statements| < cfg.layout.aggregationSize
      requires domains[d].next.size <= |domains[d].next.statements| + 1 ==>
                  |domains[d].shouldPublish| < cfg.layout.queueSize
      modifies this`domains, this`events
      ensures Spec.AcceptStatement(cfg, old(View()), d, e) == Spec.Done(View())
    {
      hide Spec.HandleHoldState;
      var dom := domains[d];
      events := events + [NewProof(e.statement, d, dom.next.id)];
      var cell := new DomainCell(dom);
      var toPublish := cell.AppendStatement(cfg.layout.aggregationSize, e);
      if toPublish.Some? {
        cell.AvailableAggregation(cfg.layout.queueSize, toPublish.value);
      }
      ghost var full := dom.(next := dom.next.(statements := dom.next.statements + [e]));
      assert [] + Spec.PopNext(full).1 == Spec.PopNext(full).1;
      ghost var appended, es := cell.entry, cell.emitted;
      assert Spec.AppendStatement(cfg, dom, e).0 == Some((appended, es));
      cell.HandleHoldState(allowlist);
      domains := domains[d := cell.entry];
      events := events + cell.emitted;
      assert events == old(events)
        + ([NewProof(e.statement, d, dom.next.id)] + es + Spec.HandleHoldState(appended, allowlist).1);
    }

    /** A verified proof arrives. Returns where the code panics, if it does; then nothing changes. */
    method OnProofVerified(account: Option<Account>, domainId: Option<nat>, statement: Digest,
                           q: Spec.Quote) returns (panicked: Option<Site>)
      requires Valid()
      modifies this
      ensures Valid()
      ensures match Spec.OnProofVerified(cfg, old(View()), account, domainId, statement, q)
              case Done(after) => panicked == None && View() == after
              case Panicked(site) => panicked == Some(site) && View() == old(View())
              case Failed(_) => false
    {
      hide Inv, Spec.ReserveCurrency, Spec.AcceptStatement;
      CallKeepsInv(cfg, View(), Spec.Submit(account, domainId, statement, q));
      panicked := None;
      if account.None? {
        events := events + [CannotAggregate(statement, NoAccount)];
        return;
      }
      if domainId.None? {
        return;
      }
      var who, d := account.value, domainId.value;
      if d !in domains {
        events := events + [CannotAggregate(statement, DomainNotRegistered(d))];
        return;
      }
      var dom := domains[d];
      if dom.state != Ready {
        events := events + [CannotAggregate(statement, InvalidState(d, dom.state))];
        return;
      }
      if !dom.CanAddStatement() {
        events := events + [CannotAggregate(statement, DomainStorageFull(d))];
        return;
      }
      var authorized := Spec.MayAddProof(dom, allowlist, who);
      if authorized.None? {
        return Some(MissingOwner);
      }
      if !authorized.value {
        events := events + [CannotAggregate(statement, UnauthorizedUser)];
        return;
      }
      RoomFor(cfg, View(), d);
      if cfg.checked && q.Sum() > U128_MAX {
        return Some(TipOverflow);
      }
      if cfg.checked && dom.delivery.Overflows() {
        return Some(FeeOverflow);
      }
      var reserve := ReserveCurrency(dom, who, q);
      if reserve.None? {
        events := events + [CannotAggregate(statement, InsufficientFunds)];
        return;
      }
      AcceptStatement(d, StatementEntry(who, reserve.value, statement));
    }

    /** Pay one held amount out, or back to its owner. */
    method HandleHeldFunds(reason: Reason, account: Account, dest: Option<Account>, amount: nat, how: Settlement)
      modifies this`balances
      ensures balances == Ledger.HandleHeldFunds(old(balances), reason, account, dest, amount, how)
    {
      if dest.Some? {
        var sent := BestEffort(balances, reason, account, amount, how.transfer);
        if sent.Some? {
          balances := Unhold(balances, reason, account, dest.value, sent.value);
          return;
        }
      }
      var back := BestEffort(balances, reason, account, amount, how.release);
      if back.Some? {
        balances := Unhold(balances, reason, account, account, back.value);
      }
    }

    /** Settle every statement of an aggregation. */
    method SettleStatements(es: seq<StatementEntry>, caller: Option<Account>, deliveryOwner: Account,
                            pay: nat -> Spec.Payment)
      modifies this`balances
      ensures balances == Spec.PayFrom(old(balances), es, 0, caller, deliveryOwner, pay)
    {
      hide Ledger.HandleHeldFunds;
      for i := 0 to |es|
        invariant Spec.PayFrom(balances, es, i, caller, deliveryOwner, pay)
                    == Spec.PayFrom(old(balances), es, 0, caller, deliveryOwner, pay)
      {
        HandleHeldFunds(Aggregation, es[i].account, caller, es[i].reserve.aggregate, pay(i).aggregation);
        HandleHeldFunds(Delivery, es[i].account, Some(deliveryOwner), es[i].reserve.delivery, pay(i).delivery);
      }
    }

    /** Take an aggregation out of its domain, settle it and list it. The precondition is checked
        by the caller; on an error nothing has changed. */
    method PublishFrom(who: User, d: nat, id: nat, pay: nat -> Spec.Payment,
                       dispatched: bool) returns (failed: Option<Error>)
      requires d in domains
      modifies this
      ensures match Spec.Publish(cfg, old(View()), Some(who), d, id, pay, dispatched)
              case Done(after) => failed == None && View() == after
              case Failed(e) => failed == Some(e) && View() == old(View())
              case Panicked(_) => false
    {
      hide Spec.PayFrom, Spec.Receipt, Spec.TakeAggregation, Spec.HandleHoldState, Spec.MayAggregate;
      var stored, paidFrom, listed, seen := domains, balances, published, events;
      var cell := new DomainCell(domains[d]);
      var found := cell.TakeAggregation(id);
      DeliveryKept(stored[d], id);
      if found.None? {
        return Some(InvalidAggregationId);
      }
      var a := found.value;
      if !Spec.MayAggregate(cell.entry, who, a) {
        return Some(BadOrigin);
      }
      var root := Spec.Receipt(cfg, a);
      SettleStatements(a.statements, who.AccountId(), cell.entry.delivery.owner, pay);
      published := published + [(d, a)];
      ghost var (taken, es, _) := Spec.TakeAggregation(stored[d], id);
      cell.HandleHoldState(allowlist);
      JoinEvents(seen, es, Spec.HandleHoldState(taken, allowlist).1, NewAggregationReceipt(d, id, root));
      domains := domains[d := cell.entry];
      events := events + cell.emitted + [NewAggregationReceipt(d, id, root)];
      if !dispatched {
        // the transaction is rolled back
        domains, balances, published, events := stored, paidFrom, listed, seen;
        return Some(DispatchFailed);
      }
      archive := archive[(d, id) := a];
      failed := None;
    }

    /** Publish an aggregation. Returns the error, if any; then nothing has changed. */
    method Aggregate(origin: Option<User>, d: nat, id: nat, pay: nat -> Spec.Payment,
                     dispatched: bool) returns (failed: Option<Error>)
      requires Valid()
      modifies this
      ensures Valid()
      ensures match Spec.Publish(cfg, old(View()), origin, d, id, pay, dispatched)
              case Done(after) => failed == None && View() == after
              case Failed(e) => failed == Some(e) && View() == old(View())
              case Panicked(_) => false
    {
      hide Inv, Spec.PayFrom, Spec.Receipt, Spec.TakeAggregation, Spec.HandleHoldState;
      CallKeepsInv(cfg, View(), Spec.Aggregate(origin, d, id, pay, dispatched));
      if origin.None? {
        return Some(BadOrigin);
      }
      if d !in domains {
        return Some(UnknownDomainId);
      }
      failed := PublishFrom(origin.value, d, id, pay, dispatched);
    }

    method RegisterDomain(origin: Option<User>, size: nat, queueSize: Option<nat>, aggregateRules: AggregateRules,
                          proofRules: ProofRules,
                          fee: nat, ownerTip: nat, deliveryOwner: Option<Account>, deposits: Spec.Deposits)
      returns (failed: Option<Error>)
      requires Valid()
      modifies this
      ensures Valid()
      ensures match Spec.Register(cfg, old(View()), origin, size, queueSize, aggregateRules, proofRules, fee, ownerTip,
                                  deliveryOwner, deposits)
              case Done(after) => failed == None && View() == after
              case Failed(e) => failed == Some(e) && View() == old(View())
              case Panicked(_) => false
    {
      hide Inv, ComputeEncodedSize;
      CallKeepsInv(cfg, View(), Spec.RegisterDomain(origin, size, queueSize, aggregateRules, proofRules, fee, ownerTip,
                                                    deliveryOwner, deposits));
      if origin.None? {
        return Some(BadOrigin);
      }
      var who := origin.value;
      var payee := deliveryOwner;
      if payee.None? {
        payee := who.AccountId();
      }
      if payee.None? {
        return Some(MissedDeliveryOwnership);
      }
      var id := nextDomainId;
      if id == U32_MAX {
        return Some(InvalidDomainParams);
      }
      var queue := if queueSize.Some? then queueSize.value else cfg.layout.queueSize;
      var ticket: Option<Ticket>, countable: Option<CountableTicket> := None, None;
      if who.Signer? {
        if !deposits.domain {
          return Some(ConsiderationFailed);
        }
        ticket := Some(Ticket(who.id, 1, ComputeEncodedSize(cfg.layout, size, queue)));
        if proofRules == OnlyAllowlisted {
          if !deposits.allowlist {
            return Some(ConsiderationFailed);
          }
          countable := Some(CountableTicket(Ticket(who.id, 0, 0), 0));
        }
      }
      if size == 0 || queue == 0 || size > cfg.layout.aggregationSize || queue > cfg.layout.queueSize {
        return Some(InvalidDomainParams);
      }
      domains := domains[id := Domain(id, who, Ready, AggregationEntry(1, size, []), size, map[], queue, ticket,
                                      countable,
                                      aggregateRules, proofRules, DeliveryParams(payee.value, fee, ownerTip))];
      nextDomainId := id + 1;
      events := events + [NewDomain(id)];
      failed := None;
    }

    method HoldDomain(origin: Option<User>, d: nat) returns (failed: Option<Error>)
      requires Valid()
      modifies this
      ensures Valid()
      ensures match Spec.HoldDomain(old(View()), origin, d)
              case Done(after) => failed == None && View() == after
              case Failed(e) => failed == Some(e) && View() == old(View())
              case Panicked(_) => false
    {
      hide Inv, Spec.UpdateHoldState;
      CallKeepsInv(cfg, View(), Spec.Halt(origin, d));
      IdMatches(cfg, View(), d);
      if origin.None? {
        return Some(BadOrigin);
      }
      if d !in domains {
        return Some(UnknownDomainId);
      }
      if !Spec.MayHandle(domains[d], origin.value) {
        return Some(BadOrigin);
      }
      if domains[d].state != Ready {
        return Some(InvalidDomainState);
      }
      var cell := new DomainCell(domains[d]);
      cell.UpdateHoldState(allowlist);
      domains := domains[d := cell.entry];
      events := events + [DomainStateChanged(d, cell.entry.state)];
      failed := None;
    }

    /** Remove a drained domain; its two tickets are dropped with it. */
    method UnregisterDomain(origin: Option<User>, d: nat) returns (failed: Option<Error>)
      requires Valid()
      modifies this
      ensures Valid()
      ensures match Spec.Unregister(old(View()), origin, d)
              case Done(after) => failed == None && View() == after
              case Failed(e) => failed == Some(e) && View() == old(View())
              case Panicked(_) => false
    {
      hide Inv;
      CallKeepsInv(cfg, View(), Spec.UnregisterDomain(origin, d));
      if origin.None? {
        return Some(BadOrigin);
      }
      if d !in domains {
        return Some(UnknownDomainId);
      }
      if !Spec.MayHandle(domains[d], origin.value) {
        return Some(BadOrigin);
      }
      if domains[d].state != Removable {
        return Some(InvalidDomainState);
      }
      var to := Spec.RefundTo(origin.value, domains[d]);
      var gone := domains[d].(ticketDomain := None);
      refunds := refunds + Spec.GiveBack(domains[d].ticketDomain, to);
      gone := gone.(ticketAllowlist := None);
      refunds := refunds + Spec.GiveBack(Spec.Countless(domains[d].ticketAllowlist), to);
      gone := gone.(state := Removed);
      events := events + [DomainStateChanged(d, gone.state)];
      domains := domains - {d};
      removed := removed[d := gone];
      assert refunds == old(refunds)
                      + (Spec.GiveBack(old(domains)[d].ticketDomain,
                                       to) + Spec.GiveBack(Spec.Countless(old(domains)[d].ticketAllowlist), to));
      failed := None;
    }

    method SetTotalDeliveryFee(origin: Option<User>, d: nat, fee: nat, ownerTip: nat) returns (failed: Option<Error>)
      requires Valid()
      modifies this
      ensures Valid()
      ensures match Spec.SetTotalDeliveryFee(old(View()), origin, d, fee, ownerTip)
              case Done(after) => failed == None && View() == after
              case Failed(e) => failed == Some(e) && View() == old(View())
              case Panicked(_) => false
    {
      hide Inv;
      CallKeepsInv(cfg, View(), Spec.SetFee(origin, d, fee, ownerTip));
      if origin.None? {
        return Some(BadOrigin);
      }
      if d !in domains {
        return Some(UnknownDomainId);
      }
      var dom := domains[d];
      if !Spec.MaySetFee(dom, origin.value) {
        return Some(BadOrigin);
      }
      dom := dom.(delivery := dom.delivery.(fee := fee));
      dom := dom.(delivery := dom.delivery.(ownerTip := ownerTip));
      domains := domains[d := dom];
      failed := None;
    }

    /** Insert the accounts that are not listed yet, counting them; an account that occurs twice
        is seen as listed the second time. */
    method InsertSubmitters(d: nat, submitters: Spec.Batch) returns (count: u32)
      modifies this`allowlist
      ensures allowlist == old(allowlist) + Spec.Entries(d, submitters)
      ensures count == |Spec.Entries(d, submitters) - old(allowlist)|
    {
      hide Spec.Entries;
      count := 0;
      NoEntries(d, submitters);
      for i := 0 to |submitters|
        invariant allowlist == old(allowlist) + Spec.Entries(d, submitters[..i])
        invariant count == |Spec.Entries(d, submitters[..i]) - old(allowlist)| && count <= i
      {
        var e := (d, submitters[i]);
        OneMoreEntry(d, submitters, i);
        if e !in allowlist {
          assert Spec.Entries(d, submitters[..i + 1]) - old(allowlist)
            == (Spec.Entries(d, submitters[..i]) - old(allowlist)) + {e};
          allowlist := allowlist + {e};
          count := count + 1;
        } else {
          assert Spec.Entries(d, submitters[..i + 1]) - old(allowlist)
            == Spec.Entries(d, submitters[..i]) - old(allowlist);
        }
      }
      assert submitters[..|submitters|] == submitters;
    }

    /** Remove the accounts that are still listed, counting them. */
    method DeleteSubmitters(d: nat, submitters: Spec.Batch) returns (count: u32)
      modifies this`allowlist
      ensures allowlist == old(allowlist) - Spec.Entries(d, submitters)
      ensures count == |Spec.Entries(d, submitters) * old(allowlist)|
    {
      hide Spec.Entries;
      count := 0;
      NoEntries(d, submitters);
      for i := 0 to |submitters|
        invariant allowlist == old(allowlist) - Spec.Entries(d, submitters[..i])
        invariant count == |Spec.Entries(d, submitters[..i]) * old(allowlist)| && count <= i
      {
        var e := (d, submitters[i]);
        OneMoreEntry(d, submitters, i);
        if e in allowlist {
          assert Spec.Entries(d, submitters[..i + 1]) * old(allowlist)
            == (Spec.Entries(d, submitters[..i]) * old(allowlist)) + {e};
          allowlist := allowlist - {e};
          count := count + 1;
        } else {
          assert Spec.Entries(d, submitters[..i + 1]) * old(allowlist)
            == Spec.Entries(d, submitters[..i]) * old(allowlist);
        }
      }
      assert submitters[..|submitters|] == submitters;
    }

    method AllowlistProofSubmitters(origin: Option<User>, d: nat, submitters: Spec.Batch,
                                    updated: bool) returns (failed: Option<Error>)
      requires Valid()
      modifies this
      ensures Valid()
      ensures match Spec.AllowlistSubmitters(old(View()), origin, d, submitters, updated)
              case Done(after) => failed == None && View() == after
              case Failed(e) => failed == Some(e) && View() == old(View())
              case Panicked(_) => false
    {
      hide Inv, Spec.Entries, Spec.Recount;
      CallKeepsInv(cfg, View(), Spec.AddSubmitters(origin, d, submitters, updated));
      IdMatches(cfg, View(), d);
      if origin.None? {
        return Some(BadOrigin);
      }
      if d !in domains {
        return Some(UnknownDomainId);
      }
      if !Spec.MayHandle(domains[d], origin.value) {
        return Some(BadOrigin);
      }
      if domains[d].state != Ready || domains[d].proofRules != OnlyAllowlisted {
        return Some(InvalidDomainParams);
      }
      var listed := allowlist;
      var count := InsertSubmitters(d, submitters);
      var cell := new DomainCell(domains[d]);
      failed := cell.ChangeFootprintCount(count, true, updated);
      if failed.Some? {
        // the transaction is rolled back
        allowlist := listed;
        return;
      }
      domains := domains[d := cell.entry];
      assert allowlist == listed + (Spec.Entries(d, submitters) - listed);
    }

    method RemoveProofSubmitters(origin: Option<User>, d: nat, submitters: Spec.Batch,
                                 updated: bool) returns (failed: Option<Error>)
      requires Valid()
      modifies this
      ensures Valid()
      ensures match Spec.RemoveSubmitters(old(View()), origin, d, submitters, updated)
              case Done(after) => failed == None && View() == after
              case Failed(e) => failed == Some(e) && View() == old(View())
              case Panicked(_) => false
    {
      hide Inv, Spec.Entries, Spec.Recount, Spec.HandleHoldState;
      CallKeepsInv(cfg, View(), Spec.DropSubmitters(origin, d, submitters, updated));
      IdMatches(cfg, View(), d);
      if origin.None? {
        return Some(BadOrigin);
      }
      if d !in domains {
        return Some(UnknownDomainId);
      }
      if !Spec.MayHandle(domains[d], origin.value) {
        return Some(BadOrigin);
      }
      if domains[d].proofRules != OnlyAllowlisted {
        return Some(InvalidDomainParams);
      }
      var listed := allowlist;
      var count := DeleteSubmitters(d, submitters);
      assert allowlist == listed - (Spec.Entries(d, submitters) * listed);
      var cell := new DomainCell(domains[d]);
      failed := cell.ChangeFootprintCount(count, false, updated);
      if failed.Some? {
        // the transaction is rolled back
        allowlist := listed;
        return;
      }
      cell.HandleHoldState(allowlist);
      domains := domains[d := cell.entry];
      events := events + cell.emitted;
      assert View() == Spec.Next(cfg, old(View()), Spec.DropSubmitters(origin, d, submitters, updated));
    }

    /** A new block begins. */
    method OnInitialize()
      requires Valid()
      modifies this`published
      ensures Valid() && View() == Spec.Next(cfg, old(View()), Spec.OnInitialize)
    {
      hide Inv;
      CallKeepsInv(cfg, View(), Spec.OnInitialize);
      published := [];
    }

    /** The inclusion path of a statement of an aggregation published in this block. */
    method GetStatementPath(d: nat, id: nat, statement: Digest) returns (r: Spec.PathResult)
      ensures r == Spec.GetStatementPath(cfg, published, d, id, statement)
    {
      hide Spec.Receipt, MerkleProof;
      var k := 0;
      while k < |published| && !(published[k].0 == d && published[k].1.id == id)
        invariant 0 <= k <= |published|
        invariant Spec.FirstPublished(published[k..], d, id) == Spec.FirstPublished(published, d, id)
      {
        assert published[k..][1..] == published[k + 1..];
        k := k + 1;
      }
      if k == |published| {
        return Spec.ReceiptNotPublished;
      }
      var a := published[k].1;
      var i := 0;
      while i < |a.statements| && a.statements[i].statement != statement
        invariant 0 <= i <= |a.statements|
        invariant i + Spec.Position(a.statements[i..], statement) == Spec.Position(a.statements, statement)
      {
        assert a.statements[i..][1..] == a.statements[i + 1..];
        i := i + 1;
      }
      if i == |a.statements| {
        return Spec.NotFound;
      }
      if i > U32_MAX {
        return Spec.IndexOutOfBounds;
      }
      r := Spec.Found(Spec.Receipt(cfg, a), MerkleProof(cfg.hash, Spec.Statements(a), i));
    }
  }
}
