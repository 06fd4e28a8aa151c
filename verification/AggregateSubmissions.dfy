/**
 A verified proof is handed over outside any storage transaction, yet what happens to it is
 all or nothing: either it is announced, filed and paid for, or one event says why not.
 */
module AggregateSubmissions {
  import opened Prelude
  import opened Ledger
  import opened AggregateData
  import opened AggregateSpec
  import opened AggregateInvariant
  import opened AggregateRights
  import opened AggregatePreservation
  import opened AggregateFunds
  import opened AggregateTheorems
  import opened AggregateSafety

  /** Nothing but an event that names the statement and the cause. */
  ghost predicate Turned(s: State, c: Call, t: State, cause: CannotAggregateCause)
    requires c.Submit?
  {
    t == s.(events := s.events + [CannotAggregate(c.statement, cause)])
  }

  /** The submission's entry: who pays which shares of the two fees. */
  ghost function EntryOf(c: Call, dom: Domain): StatementEntry
    requires c.Submit? && c.account.Some? && dom.maxAggregationSize >= 1
  {
    StatementEntry(c.account.value, Reserve(PublishShare(c.quote, dom), DeliveryShare(dom)), c.statement)
  }

  /** The ledger does not object and the submitter's free balance covers both shares together. */
  ghost predicate Affords(s: State, c: Call, dom: Domain)
    requires c.Submit? && c.account.Some? && dom.maxAggregationSize >= 1
  {
    && c.quote.grantAggregation && c.quote.grantDelivery
    && PublishShare(c.quote, dom) + DeliveryShare(dom) <= s.balances.free[c.account.value]
  }

  /** The domain once a statement is filed: in the open aggregation, which joins the queue when that
      completes it; after the last id the domain is on hold. */
  ghost function DomainWith(dom: Domain, e: StatementEntry): Domain {
    var open := dom.next.(statements := dom.next.statements + [e]);
    if |open.statements| < dom.maxAggregationSize then dom.(next := open)
    else
      var last := dom.next.id == 0xFFFF_FFFF_FFFF_FFFF;
      dom.(shouldPublish := dom.shouldPublish[dom.next.id := open],
           next := AggregationEntry(if last then 0 else dom.next.id + 1, dom.maxAggregationSize, []),
           state := if last then Hold else dom.state)
  }

  /** What is announced then. */
  ghost function EventsWith(d: nat, dom: Domain, statement: Digest): seq<Event> {
    [NewProof(statement, d, dom.next.id)]
    + (if |dom.next.statements| + 1 < dom.maxAggregationSize then []
       else
         (if dom.next.id == 0xFFFF_FFFF_FFFF_FFFF then [DomainStateChanged(d, Hold)] else [])
         + [AggregationComplete(d, dom.next.id)]
         + (if |dom.shouldPublish| + 1 == dom.publishQueueSize then [DomainFull(d)] else []))
  }

  /** Announced once under the open aggregation, filed there, added to what is pending, and paid for by
      the submitter alone, to the last unit. */
  ghost predicate TakenIn(s: State, c: Call, t: State)
    requires c.Submit?
  {
    && c.account.Some? && c.domain.Some? && c.domain.value in s.domains
    && var d, dom := c.domain.value, s.domains[c.domain.value];
       && dom.maxAggregationSize >= 1
       && var e := EntryOf(c, dom);
          && t == s.(domains := s.domains[d := DomainWith(dom, e)], balances := t.balances,
                     events := s.events + EventsWith(d, dom, c.statement))
          && (forall x :: NewProofs(t.events, x)
                == NewProofs(s.events, x) + if x == d then [(dom.next.id, c.statement)] else [])
          && Pending(t.domains, t.nextDomainId) == Pending(s.domains, s.nextDomainId) + Units(e)
          && t.balances.held == s.balances.held + Units(e)
          && t.balances.free + multiset{}[e.account := e.reserve.aggregate + e.reserve.delivery] == s.balances.free
  }

  /** What becomes of a submission: refused for the first of these causes that applies, or taken in. A
      proof for no domain leaves no trace at all. */
  ghost predicate Answered(s: State, c: Call, t: State)
    requires c.Submit?
  {
    if c.account.None? then Turned(s, c, t, NoAccount)
    else if c.domain.None? then t == s
    else
      var d, who := c.domain.value, c.account.value;
      if d !in s.domains then Turned(s, c, t, DomainNotRegistered(d))
      else
        var dom := s.domains[d];
        if dom.state != Ready then Turned(s, c, t, InvalidState(d, dom.state))
        else if !HasRoom(dom) then Turned(s, c, t, DomainStorageFull(d))
        else if !Permitted(dom, s.allowlist, who) then Turned(s, c, t, UnauthorizedUser)
        else
          && dom.maxAggregationSize >= 1
          && if Affords(s, c, dom) then TakenIn(s, c, t) else Turned(s, c, t, InsufficientFunds)
  }

  /** Both holds are taken exactly if the free balance covers both shares together. */
  lemma ReservedExactly(b: Balances, dom: Domain, who: Account, q: Quote)
    requires dom.next.size >= 1
    ensures ReserveCurrency(b, dom, who, q).Reserved? <==>
              && q.grantAggregation && q.grantDelivery
              && Share(q.PublishFee(), dom.next.size) + Share(dom.delivery.TotalFee(), dom.next.size) <= b.free[who]
  {
    hide Share;
  }

  lemma ReserveTakes(b: Balances, dom: Domain, who: Account, q: Quote)
    requires ReserveCurrency(b, dom, who, q).Reserved?
    ensures var r := ReserveCurrency(b, dom, who, q);
            r.balances.free + multiset{}[who := r.reserve.aggregate + r.reserve.delivery] == b.free
  {
    hide Share;
  }

  lemma OneAnnouncement(events: seq<Event>, statement: Digest, d: nat, id: nat, es: seq<Event>, hs: seq<Event>, x: nat)
    requires Quiet(es) && Quiet(hs)
    ensures NewProofs(events + ([NewProof(statement, d, id)] + es + hs), x)
         == NewProofs(events, x) + if x == d then [(id, statement)] else []
  {
    hide NewProofs, Quiet;
    var announced := NewProof(statement, d, id);
    QuietConcat(es, hs);
    LastEvent(events, announced);
    QuietEvents(events + [announced], es + hs);
    assert events + ([announced] + es + hs) == events + [announced] + (es + hs);
    assert NewProofs(events, x) + [] == NewProofs(events, x);
  }

  /** An accepted statement is announced exactly once. */
  lemma AcceptAnnounces(cfg: Config, s: State, d: nat, e: StatementEntry)
    requires Core(cfg, s) && d in s.domains && s.domains[d].state == Ready && s.domains[d].CanAddStatement()
    ensures AcceptStatement(cfg, s, d, e).Done?
    ensures forall x :: NewProofs(AcceptStatement(cfg, s, d, e).state.events, x)
                     == NewProofs(s.events, x) + if x == d then [(s.domains[d].next.id, e.statement)] else []
  {
    hide Core, AppendStatement, HandleHoldState, DomainOk, NewProofs, Quiet, Log;
    LiveDomain(cfg, s, d);
    AcceptKeepsDomain(cfg, d, s.domains[d], s.archive, s.allowlist, e);
    var (appended, es) := AppendStatement(cfg, s.domains[d], e).0.value;
    var hs := HandleHoldState(appended, s.allowlist).1;
    forall x ensures NewProofs(AcceptStatement(cfg, s, d, e).state.events, x)
                  == NewProofs(s.events, x) + if x == d then [(s.domains[d].next.id, e.statement)] else [] {
      OneAnnouncement(s.events, e.statement, d, s.domains[d].next.id, es, hs, x);
    }
  }

  /** Filing leaves the domain and announces as `DomainWith` and `EventsWith` say. */
  lemma AppendIs(cfg: Config, dom: Domain, e: StatementEntry)
    requires Shaped(cfg, dom) && dom.state == Ready && dom.CanAddStatement() && dom.next.id !in dom.shouldPublish
    ensures AppendStatement(cfg, dom, e).0.Some?
    ensures var (after, es) := AppendStatement(cfg, dom, e).0.value;
            && after == DomainWith(dom, e)
            && [NewProof(e.statement, dom.id, dom.next.id)] + es == EventsWith(dom.id, dom, e.statement)
  {
    var full := dom.(next := dom.next.(statements := dom.next.statements + [e]));
    if |full.next.statements| >= full.next.size {
      var queue := dom.shouldPublish[dom.next.id := full.next];
      assert queue.Keys == dom.shouldPublish.Keys + {dom.next.id};
      assert |queue| == |dom.shouldPublish| + 1;
    }
  }

  lemma HoldIs(dom: Domain, allowlist: Allowlist)
    requires dom.state == Ready || (dom.state == Hold && dom.shouldPublish != map[])
    ensures HandleHoldState(dom, allowlist) == (dom, [])
  {
  }

  lemma AcceptIs(cfg: Config, s: State, d: nat, e: StatementEntry)
    requires Core(cfg, s) && d in s.domains && s.domains[d].state == Ready && s.domains[d].CanAddStatement()
    ensures AcceptStatement(cfg, s, d, e)
         == Done(s.(domains := s.domains[d := DomainWith(s.domains[d], e)],
                    events := s.events + EventsWith(d, s.domains[d], e.statement)))
  {
    hide Core, AppendStatement, HandleHoldState, DomainWith, EventsWith, Shaped;
    LiveDomain(cfg, s, d);
    var dom := s.domains[d];
    AppendIs(cfg, dom, e);
    FilledOrReady(dom, e);
    HoldIs(DomainWith(dom, e), s.allowlist);
    var es := AppendStatement(cfg, dom, e).0.value.1;
    assert [NewProof(e.statement, d, dom.next.id)] + es + [] == [NewProof(e.statement, d, dom.next.id)] + es;
  }

  lemma FilledOrReady(dom: Domain, e: StatementEntry)
    requires dom.state == Ready
    ensures var after := DomainWith(dom, e);
            after.state == Ready || (after.state == Hold && after.shouldPublish != map[])
  {
    assert dom.next.id in dom.shouldPublish[dom.next.id := dom.next.(statements := dom.next.statements + [e])];
  }

  /** In any state of the invariant. */
  lemma SubmissionStep(cfg: Config, s: State, c: Call, t: State)
    requires Core(cfg, s) && c.Submit? && Apply(cfg, s, c) == Done(t)
    ensures Answered(s, c, t)
  {
    hide Core, AcceptStatement, ReserveCurrency, MayAddProof, TakenIn, PublishShare, DeliveryShare, Share, Permitted,
         HasRoom, Shaped;
    if c.account.Some? && c.domain.Some? && c.domain.value in s.domains {
      var d, who := c.domain.value, c.account.value;
      var dom := s.domains[d];
      LiveDomain(cfg, s, d);
      SizePositive(cfg, s, d);
      SizesMatch(cfg, dom);
      RoomAgrees(cfg, dom);
      PermittedAgrees(dom, s.allowlist, who);
      if dom.state == Ready && dom.CanAddStatement() && MayAddProof(dom, s.allowlist, who) == Some(true) {
        SharesAgree(cfg, dom, c.quote);
        ReserveSafe(s.balances, dom, who, c.quote);
        ReservedExactly(s.balances, dom, who, c.quote);
        var r := ReserveCurrency(s.balances, dom, who, c.quote);
        if r.Reserved? { TakenStep(cfg, s, c, t, r); } else { assert s.(balances := s.balances) == s; }
      }
    }
  }

  lemma SizesMatch(cfg: Config, dom: Domain)
    requires Shaped(cfg, dom)
    ensures dom.next.size == dom.maxAggregationSize
  {
  }

  lemma TakenStep(cfg: Config, s: State, c: Call, t: State, r: Reservation)
    requires Core(cfg, s) && c.Submit? && c.account.Some? && c.domain.Some? && c.domain.value in s.domains
    requires var dom := s.domains[c.domain.value];
             && dom.state == Ready && dom.CanAddStatement() && dom.next.size >= 1
             && r == ReserveCurrency(s.balances, dom, c.account.value, c.quote) && r.Reserved?
    requires AcceptStatement(cfg, s.(balances := r.balances), c.domain.value,
                             StatementEntry(c.account.value, r.reserve, c.statement)) == Done(t)
    ensures TakenIn(s, c, t)
  {
    hide Core, AcceptStatement, ReserveCurrency, Pending, NewProofs, Units, Share, PublishShare, DeliveryShare,
         DomainWith, EventsWith, Shaped;
    var d, who := c.domain.value, c.account.value;
    var dom := s.domains[d];
    LiveDomain(cfg, s, d);
    SizesMatch(cfg, dom);
    ReserveShares(s.balances, dom, who, c.quote);
    SharesAgree(cfg, dom, c.quote);
    ReserveHeld(s.balances, dom, who, c.quote, c.statement);
    ReserveTakes(s.balances, dom, who, c.quote);
    var funded := s.(balances := r.balances);
    assert funded.events == s.events + [];
    QuietStep(cfg, s, funded, []);
    var e := StatementEntry(who, r.reserve, c.statement);
    AcceptIs(cfg, funded, d, e);
    AcceptPending(cfg, funded, d, e);
    AcceptAnnounces(cfg, funded, d, e);
  }

  /** After any run, and without a storage transaction: a submission is taken in completely or leaves no
      trace but an event with its cause. */
  lemma AllOrNothing(cfg: Config, free: multiset<Account>, calls: seq<Call>, c: Call, t: State)
    requires c.Submit? && Apply(cfg, After(cfg, free, calls), c) == Done(t)
    ensures Answered(After(cfg, free, calls), c, t)
  {
    hide After, Apply, Core, Answered, TicketsOk, Covered;
    Reachable(cfg, free, calls);
    SubmissionStep(cfg, After(cfg, free, calls), c, t);
  }
}
