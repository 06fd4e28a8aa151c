/** The life of a domain over every run: its stages, and draining it until it can be removed. */
module AggregateLifecycle {
  import opened Prelude
  import opened Ledger
  import opened AggregateData
  import opened AggregateEncoding
  import opened AggregateSpec
  import opened AggregateInvariant
  import opened AggregateRights
  import opened AggregatePreservation
  import opened AggregateFunds
  import opened AggregateDeposits
  import opened AggregateTheorems
  import opened AggregatePaths

  datatype Stage = Unregistered | Live(state: DomainState) | Gone

  function StageOf(s: State, d: nat): Stage {
    if d in s.removed then Gone else if d in s.domains then Live(s.domains[d].state) else Unregistered
  }

  /** The only stage changes one call can make. */
  predicate Moves(a: Stage, b: Stage) {
    || a == b
    || (a == Unregistered && b == Live(Ready))
    || (a == Live(Ready) && (b == Live(Hold) || b == Live(Removable)))
    || (a == Live(Hold) && b == Live(Removable))
    || (a == Live(Removable) && b == Gone)
  }

  function Rank(a: Stage): nat {
    match a
    case Unregistered => 0
    case Live(Ready) => 1
    case Live(Hold) => 2
    case Live(Removable) => 3
    case _ => 4
  }

  /** What is still waiting in a domain: queued aggregations, a non-empty open one, allowlist entries. */
  ghost function Backlog(s: State, d: nat): nat
    requires d in s.domains
  {
    |s.domains[d].shouldPublish| + (if s.domains[d].next.statements == [] then 0 else 1) + |Submitters(s.allowlist, d)|
  }

  /** The part of `Backlog` that is in the domain's record. */
  function Aggregations(dom: Domain): nat {
    |dom.shouldPublish| + if dom.next.statements == [] then 0 else 1
  }

  /* ---------- what each call does to the domain it names ---------- */

  lemma SubmitMoves(cfg: Config, s: State, c: Call, t: State, d: nat)
    requires Core(cfg, s) && c.Submit? && Apply(cfg, s, c) == Done(t) && d in s.domains
    ensures t.removed == s.removed && t.allowlist == s.allowlist && d in t.domains
    ensures t.domains[d] == s.domains[d] || (s.domains[d].state == Ready && t.domains[d].state != Removed)
  {
    hide Core, AppendStatement, HandleHoldState, ReserveCurrency, Log, MayAddProof, Contiguous, Shaped;
    if c.account.Some? && c.domain == Some(d) && s.domains[d].state == Ready && s.domains[d].CanAddStatement() {
      LiveDomain(cfg, s, d);
      var r := ReserveCurrency(s.balances, s.domains[d], c.account.value, c.quote);
      if r.Reserved? {
        AcceptKeepsDomain(cfg, d, s.domains[d], s.archive, s.allowlist,
                          StatementEntry(c.account.value, r.reserve, c.statement));
      }
    }
  }

  lemma PublishMoves(cfg: Config, s: State, c: Call, t: State, d: nat)
    requires Core(cfg, s) && c.Aggregate? && Apply(cfg, s, c) == Done(t) && c.domainId == d
    ensures t.removed == s.removed && t.allowlist == s.allowlist && d in s.domains && d in t.domains
    ensures t.domains == s.domains[d := t.domains[d]]
    ensures s.domains[d].state != Removable && t.domains[d].state != Removed
    ensures (s.domains[d].state == Hold ==> t.domains[d].state != Ready)
    ensures Aggregations(t.domains[d]) == Aggregations(s.domains[d]) - 1 && t.domains[d].owner == s.domains[d].owner
  {
    hide Core, HandleHoldState, PayFrom, Receipt, TakeAggregation, Contiguous, Shaped;
    LiveDomain(cfg, s, d);
    TakeEffect(cfg, d, s.domains[d], s.archive, c.aggregationId);
    HoldEffect(cfg, TakeAggregation(s.domains[d], c.aggregationId).0, s.allowlist);
    TakeCount(cfg, s, d, c.aggregationId);
  }

  lemma TakeCount(cfg: Config, s: State, d: nat, id: nat)
    requires Core(cfg, s) && d in s.domains && TakeAggregation(s.domains[d], id).2.Some?
    ensures Aggregations(TakeAggregation(s.domains[d], id).0) == Aggregations(s.domains[d]) - 1
  {
    hide Core, Staged, TakeAggregation;
    LiveDomain(cfg, s, d);
    var dom := s.domains[d];
    TakeEffect(cfg, d, dom, s.archive, id);
    if id in dom.shouldPublish {
      assert (dom.shouldPublish - {id}).Keys == dom.shouldPublish.Keys - {id};
    } else {
      assert dom.shouldPublish - {id} == dom.shouldPublish;
    }
  }

  lemma DropMoves(cfg: Config, s: State, c: Call, t: State, d: nat)
    requires Core(cfg, s) && c.DropSubmitters? && Apply(cfg, s, c) == Done(t) && c.domainId == d
    ensures t.removed == s.removed && d in s.domains && d in t.domains
    ensures t.domains == s.domains[d := t.domains[d]]
    ensures t.domains[d].state != Removed && (s.domains[d].state == Ready <==> t.domains[d].state == Ready)
    ensures s.domains[d].state == Removable ==> t.domains[d].state == Removable
    ensures Aggregations(t.domains[d]) == Aggregations(s.domains[d]) && t.domains[d].owner == s.domains[d].owner
    ensures t.allowlist == s.allowlist - Entries(d, c.submitters)
    ensures |Submitters(t.allowlist, d)| == |Submitters(s.allowlist, d)| - |Entries(d, c.submitters) * s.allowlist|
  {
    hide Core, HandleHoldState, Contiguous, Shaped, Recount;
    LiveDomain(cfg, s, d);
    var dom := s.domains[d];
    var dropped := Entries(d, c.submitters) * s.allowlist;
    var count := TicketCount(dom) - |dropped|;
    RecountOnly(dom, count, c.updated);
    HoldEffect(cfg, Recount(dom, count, c.updated).value, t.allowlist);
    DroppedCount(d, s.allowlist, dropped);
    assert s.allowlist - dropped == s.allowlist - Entries(d, c.submitters);
  }

  lemma RecountOnly(dom: Domain, count: int, updated: bool)
    ensures Recount(dom, count, updated).Some? ==>
              Recount(dom, count, updated).value
                == dom.(ticketAllowlist := Recount(dom, count, updated).value.ticketAllowlist)
  {
  }

  /** The other calls on a live domain: at most its state changes, along the edges above. */
  lemma ManageMoves(cfg: Config, s: State, c: Call, d: nat)
    requires Core(cfg, s) && !c.Submit? && !c.Aggregate? && !c.DropSubmitters? && Apply(cfg, s, c).Done?
    ensures var t := Apply(cfg, s, c).state;
            && Moves(StageOf(s, d), StageOf(t, d))
            && (d in s.domains && d in t.domains && s.domains[d].state != Ready ==>
                  && Aggregations(t.domains[d]) == Aggregations(s.domains[d])
                  && Submitters(t.allowlist, d) == Submitters(s.allowlist, d))
  {
    hide Core, ComputeEncodedSize, Submitters, AllowlistEmpty;
    Bounds(cfg, s, d);
    if c.AddSubmitters? && d != c.domainId {
      var t := Apply(cfg, s, c).state;
      LiveDomain(cfg, s, c.domainId);
      OtherSubmitters(c.domainId, d, s.allowlist, t.allowlist);
    }
  }

  lemma Bounds(cfg: Config, s: State, d: nat)
    requires Core(cfg, s)
    ensures d in s.domains ==> d < s.nextDomainId && d !in s.removed && s.domains[d].id == d
    ensures d in s.removed ==> d < s.nextDomainId
  {
    hide Contiguous, Shaped, Staged, LogsOk, Receipted, ArchiveOk;
  }

  /* ---------- stages ---------- */

  lemma CallMoves(cfg: Config, s: State, c: Call, d: nat)
    requires Core(cfg, s)
    ensures Moves(StageOf(s, d), StageOf(Next(cfg, s, c), d))
  {
    hide Core, Apply;
    if Apply(cfg, s, c).Done? {
      NotRemovedState(cfg, s, d);
      if c.Submit? {
        if d in s.domains { SubmitMoves(cfg, s, c, Next(cfg, s, c), d); } else { SubmitElsewhere(cfg, s, c, d); }
      } else if c.Aggregate? {
        PublishMoves(cfg, s, c, Next(cfg, s, c), c.domainId);
      } else if c.DropSubmitters? {
        DropMoves(cfg, s, c, Next(cfg, s, c), c.domainId);
      } else {
        ManageMoves(cfg, s, c, d);
      }
    }
  }

  lemma SubmitElsewhere(cfg: Config, s: State, c: Call, d: nat)
    requires c.Submit? && Apply(cfg, s, c).Done? && d !in s.domains
    ensures d !in Apply(cfg, s, c).state.domains && Apply(cfg, s, c).state.removed == s.removed
  {
    hide AppendStatement, HandleHoldState, ReserveCurrency;
  }

  lemma NotRemovedState(cfg: Config, s: State, d: nat)
    requires Core(cfg, s)
    ensures d in s.domains ==> s.domains[d].state != Removed && d !in s.removed
  {
    hide Core, Contiguous, Shaped;
    Bounds(cfg, s, d);
    if d in s.domains { LiveDomain(cfg, s, d); }
  }

  lemma {:induction false} RunRanks(cfg: Config, s: State, calls: seq<Call>, d: nat)
    requires Core(cfg, s)
    ensures Rank(StageOf(s, d)) <= Rank(StageOf(Run(cfg, s, calls), d))
    decreases |calls|
  {
    hide Core, Next;
    if calls != [] {
      CallMoves(cfg, s, calls[0], d);
      CallKeepsCore(cfg, s, calls[0]);
      RunRanks(cfg, Next(cfg, s, calls[0]), calls[1..], d);
    }
  }

  /** Over every run the stage of a domain only advances: it never returns to Ready, Removable
      leads only to removal, and a removed id is never used again. In every reachable state a
      live domain that is not Ready is Removable exactly when its queue, its open aggregation
      and its allowlist are empty. */
  lemma StagesAdvance(cfg: Config, free: multiset<Account>, before: seq<Call>, rest: seq<Call>, d: nat)
    ensures var s, t := After(cfg, free, before), After(cfg, free, before + rest);
            && Rank(StageOf(s, d)) <= Rank(StageOf(t, d))
            && (d in s.domains && s.domains[d].state != Ready ==>
                  (s.domains[d].state == Removable <==>
                     && s.domains[d].shouldPublish == map[] && s.domains[d].next.statements == []
                     && Submitters(s.allowlist, d) == {}))
  {
    hide Core, Next, Contiguous, Shaped;
    Reachable(cfg, free, before);
    var s := After(cfg, free, before);
    RunConcat(cfg, Genesis(free), before, rest);
    RunRanks(cfg, s, rest, d);
    if d in s.domains { LiveDomain(cfg, s, d); }
  }

  /** Removing a domain strands nothing: no statement, hold or allowlist entry is left under its
      id, and every statement ever announced for it is in a published aggregation. */
  lemma NothingStranded(cfg: Config, free: multiset<Account>, calls: seq<Call>, d: nat, id: nat)
    requires d in After(cfg, free, calls).removed
    ensures var s := After(cfg, free, calls);
            && d !in s.domains && DomainUnits(s.removed[d]) == multiset{} && Submitters(s.allowlist, d) == {}
            && (Announced(s.events, d, id) != [] ==>
                  (d, id) in s.archive && Announced(s.events, d, id) == Statements(s.archive[(d, id)]))
  {
    hide After, Core, NewProofs, Select, DomainUnits, LogBelow, Log;
    Reachable(cfg, free, calls);
    var s := After(cfg, free, calls);
    Bounds(cfg, s, d);
    RemovedIsEmpty(cfg, s, d);
    NothingPending(s.removed[d]);
    FilingOf(cfg, s, d);
    AnnouncedThenPublished(cfg, free, calls, d, id);
    if (d, id) !in s.archive { SelectAbsent(d, s.removed[d], s.archive, id); }
  }

  lemma RemovedIsEmpty(cfg: Config, s: State, d: nat)
    requires Core(cfg, s) && d in s.removed
    ensures s.removed[d].shouldPublish == map[] && s.removed[d].next.statements == []
    ensures Submitters(s.allowlist, d) == {}
    ensures d !in s.domains
  {
    hide DomainOk, LogsOk, Receipted, ArchiveOk;
    assert RemovedOk(d, s.removed[d], s.archive, s.allowlist);
  }

  lemma SelectAbsent(d: nat, dom: Domain, archive: Archive, id: nat)
    requires FiledById(d, dom.shouldPublish, archive) && dom.shouldPublish == map[] && dom.next.statements == []
    requires (d, id) !in archive
    ensures Select(Log(d, dom, archive), id) == []
  {
    hide Select, LogBelow;
    SelectConcat(LogBelow(d, dom.shouldPublish, archive, Frontier(dom)), Tagged(dom.next), id);
    SelectLog(d, dom.shouldPublish, archive, Frontier(dom), id);
    SelectNothing(id);
    assert Tagged(dom.next) == [];
  }

  /* ---------- draining ---------- */

  /** Once a domain is off Ready its backlog never grows, publishing lowers it by one and
      dropping submitters by the number of entries dropped. */
  lemma BacklogShrinks(cfg: Config, s: State, c: Call, d: nat)
    requires Core(cfg, s) && d in s.domains && s.domains[d].state != Ready && d in Next(cfg, s, c).domains
    ensures Backlog(Next(cfg, s, c), d) <= Backlog(s, d)
    ensures Apply(cfg, s, c).Done? && c.Aggregate? && c.domainId == d ==>
              Backlog(Next(cfg, s, c), d) == Backlog(s, d) - 1
    ensures Apply(cfg, s, c).Done? && c.DropSubmitters? && c.domainId == d ==>
              Backlog(Next(cfg, s, c), d) == Backlog(s, d) - |Entries(d, c.submitters) * s.allowlist|
  {
    hide Core, Apply, Submitters, Entries;
    if Apply(cfg, s, c).Done? {
      if c.Submit? {
        SubmitMoves(cfg, s, c, Next(cfg, s, c), d);
      } else if c.Aggregate? {
        PublishMoves(cfg, s, c, Next(cfg, s, c), c.domainId);
      } else if c.DropSubmitters? {
        DropMoves(cfg, s, c, Next(cfg, s, c), c.domainId);
        if c.domainId != d { DropElsewhere(c.domainId, d, s.allowlist, c.submitters); }
      } else {
        ManageMoves(cfg, s, c, d);
      }
    }
  }

  lemma DropElsewhere(d: nat, x: nat, allowlist: Allowlist, submitters: seq<Account>)
    requires x != d
    ensures Submitters(allowlist - Entries(d, submitters), x) == Submitters(allowlist, x)
  {
    OtherSubmitters(d, x, allowlist, allowlist - Entries(d, submitters));
  }

  /** Whatever waits is published, however its statements are settled, exactly if the domain's rules let
      the caller and the dispatch goes through. */
  lemma PublishEnabled(cfg: Config, s: State, who: User, d: nat, id: nat, pay: nat -> Payment, dispatched: bool)
    requires Core(cfg, s) && d in s.domains && Waits(s.domains[d], id)
    ensures var answer := Apply(cfg, s, Aggregate(Some(who), d, id, pay, dispatched));
            && (answer.Done? <==> dispatched && MayPublish(s.domains[d], who, Waiting(s.domains[d], id)))
            && (answer == Failed(BadOrigin) <==> !MayPublish(s.domains[d], who, Waiting(s.domains[d], id)))
  {
    hide Core, TakeAggregation, HandleHoldState, PayFrom, Receipt, Staged, MayAggregate, MayPublish;
    LiveDomain(cfg, s, d);
    var dom := s.domains[d];
    TakeEffect(cfg, d, dom, s.archive, id);
    PublishAgrees(cfg, dom, who, id);
    SameRules(dom, TakeAggregation(dom, id).0, who, Waiting(dom, id));
  }

  lemma SameRules(dom: Domain, after: Domain, who: User, a: AggregationEntry)
    requires after.aggregateRules == dom.aggregateRules && after.owner == dom.owner && after.delivery == dom.delivery
    ensures MayAggregate(after, who, a) <==> MayAggregate(dom, who, a)
  {
  }

  /** An allowlisted submitter is removed, at a granted price, exactly by those who may handle the domain. */
  lemma DropEnabled(cfg: Config, s: State, who: User, d: nat, a: Account)
    requires Inv(cfg, s) && d in s.domains && (d, a) in s.allowlist
    ensures Apply(cfg, s, DropSubmitters(Some(who), d, [a], true)).Done? <==> Owns(who, s.domains[d])
    ensures |Entries(d, [a]) * s.allowlist| == 1
  {
    hide Core, TicketsOk, Covered, HandleHoldState, Contiguous, Shaped;
    LiveDomain(cfg, s, d);
    assert a in Submitters(s.allowlist, d);
    assert Entries(d, [a]) * s.allowlist == {(d, a)};
    if s.domains[d].ticketAllowlist.Some? {
      DropNeverUnderflows(cfg, s, d, [a]);
    }
  }

  lemma HaltEnabled(cfg: Config, s: State, who: User, d: nat)
    requires Core(cfg, s) && d in s.domains && s.domains[d].state == Ready && Owns(who, s.domains[d])
    ensures var t := Next(cfg, s, Halt(Some(who), d));
            && d in t.domains && t.domains[d].state != Ready && t.domains[d].owner == s.domains[d].owner
            && Backlog(t, d) == Backlog(s, d)
  {
    hide Core, Submitters, AllowlistEmpty;
  }

  lemma UnregisterEnabled(cfg: Config, s: State, who: User, d: nat)
    requires Core(cfg, s) && d in s.domains && Owns(who, s.domains[d])
    requires s.domains[d].state != Ready && Backlog(s, d) == 0
    ensures d in Next(cfg, s, UnregisterDomain(Some(who), d)).removed
  {
    hide Core, Contiguous, Shaped;
    LiveDomain(cfg, s, d);
    assert s.domains[d].shouldPublish == map[];
  }

  /** What the owner of a domain, or the manager, does next with it. */
  datatype Move = Stop | PublishOne(id: nat) | Dismiss(account: Account) | Remove

  /** What the environment answers to it: how every statement is settled, and whether the dispatch of
      an aggregation or the new price of an allowlist ticket goes through. */
  datatype Answer = Answer(pay: nat -> Payment, granted: bool)

  /** The move depends on the state only: take the domain off Ready, publish what waits, dismiss the
      allowlisted submitters, remove it. */
  ghost function Pick(s: State, d: nat): Move
    requires d in s.domains
  {
    var dom := s.domains[d];
    if dom.state == Ready then Stop
    else if dom.shouldPublish != map[] then var id :| id in dom.shouldPublish; PublishOne(id)
    else if dom.next.statements != [] then PublishOne(dom.next.id)
    else if Submitters(s.allowlist, d) != {} then var a :| a in Submitters(s.allowlist, d); Dismiss(a)
    else Remove
  }

  function CallFor(move: Move, who: User, d: nat, a: Answer): Call {
    match move
    case Stop => Halt(Some(who), d)
    case PublishOne(id) => Aggregate(Some(who), d, id, a.pay, a.granted)
    case Dismiss(account) => DropSubmitters(Some(who), d, [account], a.granted)
    case Remove => UnregisterDomain(Some(who), d)
  }

  /** The successful moves left until the domain is removed. */
  ghost function Left(s: State, d: nat): nat {
    if d !in s.domains then 0 else Backlog(s, d) + if s.domains[d].state == Ready then 2 else 1
  }

  /** Whatever the environment answers, a move that needs no grant or is granted succeeds and leaves
      one less to do. A refused one changes nothing, unless there was nothing to refuse. */
  lemma DrainStep(cfg: Config, s: State, who: User, d: nat, a: Answer)
    requires Inv(cfg, s) && d in s.domains && Owns(who, s.domains[d])
    ensures var t := Next(cfg, s, CallFor(Pick(s, d), who, d, a));
            && (if d in t.domains then Owns(who, t.domains[d]) else d in t.removed)
            && Left(t, d) <= Left(s, d)
            && (a.granted || Pick(s, d).Stop? || Pick(s, d).Remove? ==> Left(t, d) == Left(s, d) - 1)
  {
    hide Core, TicketsOk, Covered, Apply, Submitters, Inv;
    InvCore(cfg, s);
    NotRemovedState(cfg, s, d);
    var move := Pick(s, d);
    var c := CallFor(move, who, d, a);
    match move {
      case Stop => HaltEnabled(cfg, s, who, d);
      case PublishOne(id) =>
        PublishEnabled(cfg, s, who, d, id, a.pay, a.granted);
        if a.granted {
          PublishMoves(cfg, s, c, Next(cfg, s, c), d);
          BacklogShrinks(cfg, s, c, d);
        }
      case Dismiss(account) => DismissStep(cfg, s, who, d, account, a.granted);
      case Remove =>
        EmptyBacklog(s, d);
        UnregisterEnabled(cfg, s, who, d);
        CallKeepsCore(cfg, s, c);
        NotRemovedState(cfg, Next(cfg, s, c), d);
    }
  }

  lemma InvCore(cfg: Config, s: State)
    requires Inv(cfg, s)
    ensures Core(cfg, s)
  {
    hide Core, TicketsOk, Covered;
  }

  lemma EmptyBacklog(s: State, d: nat)
    requires d in s.domains && Pick(s, d).Remove?
    ensures Backlog(s, d) == 0
  {
    hide Submitters;
  }

  lemma DismissStep(cfg: Config, s: State, who: User, d: nat, account: Account, updated: bool)
    requires Inv(cfg, s) && d in s.domains && Owns(who, s.domains[d])
    requires s.domains[d].state != Ready && account in Submitters(s.allowlist, d)
    ensures var t := Next(cfg, s, DropSubmitters(Some(who), d, [account], updated));
            && d in t.domains && t.domains[d].state != Ready && t.domains[d].owner == s.domains[d].owner
            && Backlog(t, d) <= Backlog(s, d)
            && (updated ==> Backlog(t, d) == Backlog(s, d) - 1)
  {
    hide Core, TicketsOk, Covered, Apply, Backlog;
    var c := DropSubmitters(Some(who), d, [account], updated);
    if updated { DropEnabled(cfg, s, who, d, account); }
    if Apply(cfg, s, c).Done? {
      DropMoves(cfg, s, c, Next(cfg, s, c), d);
      BacklogShrinks(cfg, s, c, d);
    }
  }

  /** The state when `who` plays against these answers until the domain is gone. */
  ghost function Play(cfg: Config, s: State, who: User, d: nat, answers: seq<Answer>): State
    decreases |answers|
  {
    if answers == [] || d !in s.domains then s
    else Play(cfg, Next(cfg, s, CallFor(Pick(s, d), who, d, answers[0])), who, d, answers[1..])
  }

  ghost function Grants(answers: seq<Answer>): nat {
    if answers == [] then 0 else (if answers[0].granted then 1 else 0) + Grants(answers[1..])
  }

  /** From every state satisfying the invariant the owner of a live domain, or the manager, removes it
      without anybody's help, whatever the environment answers, once it has granted as many
      times as there are moves left. */
  lemma {:induction false} HandlerRemoves(cfg: Config, s: State, who: User, d: nat, answers: seq<Answer>)
    requires Inv(cfg, s) && (if d in s.domains then Owns(who, s.domains[d]) else d in s.removed)
    requires Grants(answers) >= Left(s, d)
    ensures d in Play(cfg, s, who, d, answers).removed
    decreases |answers|
  {
    hide Inv, Next, Pick, CallFor, Backlog, Owns;
    if d in s.domains {
      DrainStep(cfg, s, who, d, answers[0]);
      var c := CallFor(Pick(s, d), who, d, answers[0]);
      CallKeepsInv(cfg, s, c);
      HandlerRemoves(cfg, Next(cfg, s, c), who, d, answers[1..]);
    }
  }

  /** No reachable state is a dead end: the owner alone, and the manager alone, can drain and remove every
      registered domain, if the environment grants dispatches and ticket prices often enough:
      once for everything that waits, and twice more. */
  lemma EveryDomainRemovable(cfg: Config, free: multiset<Account>, before: seq<Call>, who: User, d: nat,
                             answers: seq<Answer>)
    requires d in After(cfg, free, before).domains && Owns(who, After(cfg, free, before).domains[d])
    requires Grants(answers) >= Backlog(After(cfg, free, before), d) + 2
    ensures d in Play(cfg, After(cfg, free, before), who, d, answers).removed
  {
    hide Inv, Play, Backlog;
    Reachable(cfg, free, before);
    HandlerRemoves(cfg, After(cfg, free, before), who, d, answers);
  }
}
