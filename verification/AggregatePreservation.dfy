/** Every call of the aggregation pallet keeps the invariant on domains, logs and receipts. */
module AggregatePreservation {
  import opened Prelude
  import opened Ledger
  import opened AggregateData
  import opened AggregateEncoding
  import opened AggregateSpec
  import opened AggregateInvariant

  /* ---------- events ---------- */

  /** Events that announce neither a statement nor a receipt. */
  ghost predicate Quiet(es: seq<Event>) {
    forall i :: 0 <= i < |es| ==> !es[i].NewProof? && !es[i].NewAggregationReceipt?
  }

  lemma {:induction false} QuietEvents(events: seq<Event>, es: seq<Event>)
    requires Quiet(es)
    ensures forall d :: NewProofs(events + es, d) == NewProofs(events, d)
    ensures Receipts(events + es) == Receipts(events)
    decreases |es|
  {
    if es == [] {
      assert events + es == events;
    } else {
      var init := es[..|es| - 1];
      QuietEvents(events, init);
      assert (events + es)[..|events + es| - 1] == events + init;
    }
  }

  lemma QuietConcat(es: seq<Event>, fs: seq<Event>)
    requires Quiet(es) && Quiet(fs)
    ensures Quiet(es + fs)
  {
  }

  lemma LastEvent(events: seq<Event>, e: Event)
    ensures forall d :: NewProofs(events + [e], d) ==
              if e.NewProof? && e.domainId == d then NewProofs(events, d) + [(e.aggregationId, e.statement)]
              else NewProofs(events, d)
    ensures Receipts(events + [e]) ==
              if e.NewAggregationReceipt? then Receipts(events) + [(e.domainId, e.aggregationId, e.receipt)]
              else Receipts(events)
  {
    assert (events + [e])[..|events|] == events;
  }

  /* ---------- one domain ---------- */

  /** Queueing the aggregation at the frontier. */
  lemma FileInQueue(d: nat, q: map<nat, AggregationEntry>, archive: Archive, n: nat, a: AggregationEntry)
    requires Contiguous(d, q, archive, n) && n >= 1
    ensures Contiguous(d, q[n := a], archive, n + 1)
    ensures LogBelow(d, q[n := a], archive, n + 1) == LogBelow(d, q, archive, n) + Tagged(a)
  {
    assert forall id: nat :: id < n ==> Filed(d, q[n := a], archive, id) == Filed(d, q, archive, id);
    LogBelowSame(d, q, archive, q[n := a], archive, n);
  }

  /** Publishing the aggregation at the frontier. */
  lemma FileInArchive(d: nat, q: map<nat, AggregationEntry>, archive: Archive, n: nat, a: AggregationEntry)
    requires Contiguous(d, q, archive, n) && n >= 1
    ensures n !in q && (d, n) !in archive && Contiguous(d, q, archive[(d, n) := a], n + 1)
    ensures LogBelow(d, q, archive[(d, n) := a], n + 1) == LogBelow(d, q, archive, n) + Tagged(a)
  {
    var archive' := archive[(d, n) := a];
    assert forall id: nat :: id < n ==> Filed(d, q, archive', id) == Filed(d, q, archive, id);
    LogBelowSame(d, q, archive, q, archive', n);
  }

  /** Publishing a queued aggregation, wherever it stands in the queue. */
  lemma MoveToArchive(d: nat, q: map<nat, AggregationEntry>, archive: Archive, n: nat, id: nat)
    requires Contiguous(d, q, archive, n) && id in q
    ensures 1 <= id < n && (d, id) !in archive && Contiguous(d, q - {id}, archive[(d, id) := q[id]], n)
    ensures LogBelow(d, q - {id}, archive[(d, id) := q[id]], n) == LogBelow(d, q, archive, n)
  {
    var archive' := archive[(d, id) := q[id]];
    assert forall i: nat :: i < n ==> Filed(d, q - {id}, archive', i) == Filed(d, q, archive, i);
    LogBelowSame(d, q, archive, q - {id}, archive', n);
  }

  lemma {:induction false} LogBelowSame(d: nat, q: map<nat, AggregationEntry>, archive: Archive,
                                        q': map<nat, AggregationEntry>, archive': Archive, n: nat)
    requires forall id: nat :: id < n ==> Filed(d, q, archive, id) == Filed(d, q', archive', id)
    ensures LogBelow(d, q, archive, n) == LogBelow(d, q', archive', n)
  {
    if n > 0 { LogBelowSame(d, q, archive, q', archive', n - 1); }
  }

  /** Closing a non-empty open aggregation moves the frontier by one, also when the ids run out. */
  lemma PopEffect(dom: Domain)
    requires dom.next.statements != [] && 1 <= dom.next.id <= U64_MAX
    ensures var (popped, es, closed) := PopNext(dom);
            && closed == Some(dom.next) && Quiet(es)
            && popped == dom.(next := popped.next, state := popped.state)
            && Frontier(popped) == Frontier(dom) + 1
            && popped.next.statements == [] && popped.next.size == dom.next.size && popped.next.id <= U64_MAX
            && (popped.state == dom.state || popped.state == Hold)
            && (popped.next.id == 0 ==> popped.state == Hold)
  {
  }

  /** Where the statement goes: into the open aggregation, or it completes it and the
      completed aggregation is queued under its id. */
  lemma AppendEffect(cfg: Config, d: nat, dom: Domain, archive: Archive, e: StatementEntry)
    requires Shaped(cfg, dom) && Contiguous(d, dom.shouldPublish, archive, Frontier(dom))
    requires dom.state == Ready && dom.CanAddStatement()
    ensures var full := dom.next.(statements := dom.next.statements + [e]);
            var (result, _) := AppendStatement(cfg, dom, e);
            && result.Some? && Quiet(result.value.1)
            && var after := result.value.0;
               && after == dom.(next := after.next, state := after.state, shouldPublish := after.shouldPublish)
               && (if |full.statements| < dom.next.size
                   then after == dom.(next := full)
                   else
                     && after.shouldPublish == dom.shouldPublish[dom.next.id := full]
                     && Frontier(after) == Frontier(dom) + 1
                     && after.next.statements == [] && after.next.size == dom.next.size && after.next.id <= U64_MAX
                     && (after.state == Ready || after.state == Hold)
                     && (after.next.id == 0 ==> after.state == Hold))
  {
    var full := dom.(next := dom.next.(statements := dom.next.statements + [e]));
    if |full.next.statements| >= full.next.size {
      PopEffect(full);
    }
  }

  lemma HoldEffect(cfg: Config, dom: Domain, allowlist: Allowlist)
    requires dom.state != Removed
    requires dom.proofRules != OnlyAllowlisted ==> Submitters(allowlist, dom.id) == {}
    ensures var (held, es) := HandleHoldState(dom, allowlist);
            && held == dom.(state := held.state) && Quiet(es) && Staged(held, allowlist)
            && (held.state == Ready <==> dom.state == Ready)
            && (Shaped(cfg, dom) ==> Shaped(cfg, held))
  {
  }

  /** What can be taken: a queued aggregation, or the open one unless it is empty. */
  lemma TakeEffect(cfg: Config, d: nat, dom: Domain, archive: Archive, id: nat)
    requires Shaped(cfg, dom) && Contiguous(d, dom.shouldPublish, archive, Frontier(dom))
    ensures var (taken, es, found) := TakeAggregation(dom, id);
            && Quiet(es)
            && (found.Some? <==> id in dom.shouldPublish || (id == dom.next.id && dom.next.statements != []))
            && (found.Some? ==>
                 && found.value == (if id in dom.shouldPublish then dom.shouldPublish[id] else dom.next)
                 && found.value.id == id
                 && taken == dom.(next := taken.next, state := taken.state, shouldPublish := dom.shouldPublish - {id})
                 && (taken.state == dom.state || taken.state == Hold)
                 && (if id in dom.shouldPublish then taken.next == dom.next && taken.state == dom.state
                     else
                       && Frontier(taken) == Frontier(dom) + 1
                       && taken.next.statements == [] && taken.next.size == dom.next.size && taken.next.id <= U64_MAX
                       && (taken.next.id == 0 ==> taken.state == Hold)))
  {
    if id == dom.next.id && dom.next.statements != [] {
      PopEffect(dom);
      assert id !in dom.shouldPublish;
      assert dom.shouldPublish - {id} == dom.shouldPublish;
    }
  }

  lemma AcceptKeepsFiling(cfg: Config, d: nat, dom: Domain, archive: Archive, e: StatementEntry)
    requires Shaped(cfg, dom) && Contiguous(d, dom.shouldPublish, archive, Frontier(dom))
    requires dom.state == Ready && dom.CanAddStatement()
    ensures AppendStatement(cfg, dom, e).0.Some?
    ensures var after := AppendStatement(cfg, dom, e).0.value.0;
            && Shaped(cfg, after) && Contiguous(d, after.shouldPublish, archive, Frontier(after))
            && Log(d, after, archive) == Log(d, dom, archive) + [(dom.next.id, e.statement)]
  {
    hide AppendStatement, LogBelow;
    AppendEffect(cfg, d, dom, archive, e);
    var after := AppendStatement(cfg, dom, e).0.value.0;
    var full := dom.next.(statements := dom.next.statements + [e]);
    assert Tagged(full) == Tagged(dom.next) + [(dom.next.id, e.statement)];
    if |full.statements| >= dom.next.size {
      FileInQueue(d, dom.shouldPublish, archive, dom.next.id, full);
      assert Tagged(after.next) == [];
    }
  }

  /** Accepting a statement keeps the domain's invariant and appends it to the domain's log,
      under the id it was announced with. */
  lemma AcceptKeepsDomain(cfg: Config, d: nat, dom: Domain, archive: Archive, allowlist: Allowlist, e: StatementEntry)
    requires DomainOk(cfg, d, dom, archive, allowlist) && dom.state == Ready && dom.CanAddStatement()
    ensures AppendStatement(cfg, dom, e).0.Some?
    ensures var (appended, es) := AppendStatement(cfg, dom, e).0.value;
            var (held, hs) := HandleHoldState(appended, allowlist);
            && Quiet(es) && Quiet(hs) && DomainOk(cfg, d, held, archive, allowlist)
            && Log(d, held, archive) == Log(d, dom, archive) + [(dom.next.id, e.statement)]
  {
    hide AppendStatement, HandleHoldState, LogBelow, Contiguous, Shaped;
    AppendEffect(cfg, d, dom, archive, e);
    AcceptKeepsFiling(cfg, d, dom, archive, e);
    HoldEffect(cfg, AppendStatement(cfg, dom, e).0.value.0, allowlist);
  }

  lemma TakeKeepsFiling(cfg: Config, d: nat, dom: Domain, archive: Archive, id: nat)
    requires Shaped(cfg, dom) && Contiguous(d, dom.shouldPublish, archive, Frontier(dom))
    requires TakeAggregation(dom, id).2.Some?
    ensures var (taken, _, found) := TakeAggregation(dom, id);
            && (d, id) !in archive && 1 <= id <= U64_MAX
            && Contiguous(d, taken.shouldPublish, archive[(d, id) := found.value], Frontier(taken))
            && Log(d, taken, archive[(d, id) := found.value]) == Log(d, dom, archive)
  {
    hide TakeAggregation, LogBelow;
    TakeEffect(cfg, d, dom, archive, id);
    var (taken, es, found) := TakeAggregation(dom, id);
    if id in dom.shouldPublish {
      MoveToArchive(d, dom.shouldPublish, archive, Frontier(dom), id);
    } else {
      FileInArchive(d, dom.shouldPublish, archive, Frontier(dom), dom.next);
      assert taken.shouldPublish == dom.shouldPublish && found.value == dom.next;
      assert Tagged(taken.next) == [];
    }
  }

  lemma TakeKeepsShape(cfg: Config, d: nat, dom: Domain, archive: Archive, id: nat)
    requires Shaped(cfg, dom) && Contiguous(d, dom.shouldPublish, archive, Frontier(dom))
    requires TakeAggregation(dom, id).2.Some?
    ensures var (taken, _, found) := TakeAggregation(dom, id);
            && Shaped(cfg, taken) && found.value.id == id
            && 1 <= |found.value.statements| <= found.value.size <= cfg.layout.aggregationSize
  {
    TakeEffect(cfg, d, dom, archive, id);
    var taken := TakeAggregation(dom, id).0;
    CardinalityMonotone(taken.shouldPublish.Keys, dom.shouldPublish.Keys);
  }

  /** Publishing an aggregation keeps the domain's invariant and its log. */
  lemma TakeKeepsDomain(cfg: Config, d: nat, dom: Domain, archive: Archive, allowlist: Allowlist, id: nat)
    requires DomainOk(cfg, d, dom, archive, allowlist)
    requires TakeAggregation(dom, id).2.Some?
    ensures var (taken, es, found) := TakeAggregation(dom, id);
            var (held, hs) := HandleHoldState(taken, allowlist);
            && Quiet(es) && Quiet(hs)
            && (d, id) !in archive && 1 <= id <= U64_MAX && found.value.id == id
            && 1 <= |found.value.statements| <= found.value.size <= cfg.layout.aggregationSize
            && DomainOk(cfg, d, held, archive[(d, id) := found.value], allowlist)
            && Log(d, held, archive[(d, id) := found.value]) == Log(d, dom, archive)
  {
    hide TakeAggregation, HandleHoldState, LogBelow, Contiguous, Shaped;
    assert Shaped(cfg, dom) && Contiguous(d, dom.shouldPublish, archive, Frontier(dom));
    TakeEffect(cfg, d, dom, archive, id);
    TakeKeepsFiling(cfg, d, dom, archive, id);
    TakeKeepsShape(cfg, d, dom, archive, id);
    HoldEffect(cfg, TakeAggregation(dom, id).0, allowlist);
  }

  lemma {:induction false} CardinalityMonotone<T>(a: set<T>, b: set<T>)
    requires a <= b
    ensures |a| <= |b|
  {
    assert b == a + (b - a);
  }

  /* ---------- the whole state ---------- */

  ghost predicate SameElsewhere(d: nat, archive: Archive, archive': Archive) {
    forall k: (nat, nat) :: k.0 != d ==>
      (k in archive' <==> k in archive) && (k in archive' ==> archive'[k] == archive[k])
  }

  ghost predicate SameEntriesElsewhere(d: nat, allowlist: Allowlist, allowlist': Allowlist) {
    forall e: (nat, Account) :: e.0 != d ==> (e in allowlist' <==> e in allowlist)
  }

  lemma OtherSubmitters(d: nat, x: nat, allowlist: Allowlist, allowlist': Allowlist)
    requires SameEntriesElsewhere(d, allowlist, allowlist') && x != d
    ensures Submitters(allowlist', x) == Submitters(allowlist, x)
  {
    forall a ensures a in Submitters(allowlist', x) <==> a in Submitters(allowlist, x) {
      assert (x, a) in allowlist' <==> (x, a) in allowlist;
    }
  }

  lemma OtherContiguous(d: nat, x: nat, q: map<nat, AggregationEntry>, archive: Archive, archive': Archive, n: nat)
    requires SameElsewhere(d, archive, archive') && x != d && Contiguous(x, q, archive, n)
    ensures Contiguous(x, q, archive', n)
  {
    forall id: nat ensures (x, id) in archive' <==> (x, id) in archive {
      var k := (x, id);
      assert k.0 != d;
    }
  }

  lemma OtherDomain(cfg: Config, d: nat, x: nat, dom: Domain, s: State, t: State)
    requires SameEntriesElsewhere(d, s.allowlist, t.allowlist) && SameElsewhere(d, s.archive, t.archive) && x != d
    ensures DomainOk(cfg, x, dom, s.archive, s.allowlist) ==> DomainOk(cfg, x, dom, t.archive, t.allowlist)
    ensures RemovedOk(x, dom, s.archive, s.allowlist) ==> RemovedOk(x, dom, t.archive, t.allowlist)
  {
    OtherSubmitters(d, x, s.allowlist, t.allowlist);
    if Contiguous(x, dom.shouldPublish, s.archive, Frontier(dom)) {
      OtherContiguous(d, x, dom.shouldPublish, s.archive, t.archive, Frontier(dom));
    }
  }

  /** Replacing one domain, with whatever is filed under it, keeps the others as they were. */
  lemma SetDomain(cfg: Config, s: State, t: State, d: nat, dom: Domain)
    requires DomainsOk(cfg, s) && d in s.domains
    requires t.domains == s.domains[d := dom] && t.removed == s.removed && t.nextDomainId == s.nextDomainId
    requires SameEntriesElsewhere(d, s.allowlist, t.allowlist)
    requires SameElsewhere(d, s.archive, t.archive)
    requires ArchiveOk(cfg, t.nextDomainId, t.archive)
    requires DomainOk(cfg, d, dom, t.archive, t.allowlist)
    ensures DomainsOk(cfg, t)
  {
    hide DomainOk;
    hide RemovedOk;
    hide ArchiveOk;
    forall x | x in t.domains
      ensures DomainOk(cfg, x, t.domains[x], t.archive, t.allowlist)
    {
      if x != d { OtherDomain(cfg, d, x, s.domains[x], s, t); }
    }
    forall x | x in t.removed
      ensures RemovedOk(x, t.removed[x], t.archive, t.allowlist)
    {
      OtherDomain(cfg, d, x, s.removed[x], s, t);
    }
  }

  lemma {:induction false} LogIgnoresOthers(d: nat, x: nat, q: map<nat, AggregationEntry>, archive: Archive,
                                            archive': Archive, n: nat)
    requires SameElsewhere(d, archive, archive') && x != d
    ensures LogBelow(x, q, archive', n) == LogBelow(x, q, archive, n)
  {
    LogBelowSame(x, q, archive', q, archive, n);
  }

  /** The same for logs: only domain `d` may have a new log. */
  lemma SetLog(s: State, t: State, d: nat)
    requires LogsOk(s) && d in s.domains && d in t.domains && d !in s.removed && d < s.nextDomainId
    requires t.domains == s.domains[d := t.domains[d]] && t.removed == s.removed && t.nextDomainId == s.nextDomainId
    requires SameElsewhere(d, s.archive, t.archive)
    requires forall x :: x != d ==> NewProofs(t.events, x) == NewProofs(s.events, x)
    requires NewProofs(t.events, d) == Log(d, t.domains[d], t.archive)
    ensures LogsOk(t)
  {
    forall x | x in t.domains
      ensures NewProofs(t.events, x) == Log(x, t.domains[x], t.archive)
    {
      if x != d { LogIgnoresOthers(d, x, t.domains[x].shouldPublish, s.archive, t.archive, Frontier(t.domains[x])); }
    }
    forall x | x in t.removed
      ensures NewProofs(t.events, x) == Log(x, t.removed[x], t.archive)
    {
      LogIgnoresOthers(d, x, t.removed[x].shouldPublish, s.archive, t.archive, Frontier(t.removed[x]));
    }
  }

  lemma AddReceipt(cfg: Config, rs: seq<(nat, nat, Digest)>, archive: Archive, published: seq<(nat, AggregationEntry)>,
                   d: nat, a: AggregationEntry)
    requires Receipted(cfg, rs, archive, published) && (d, a.id) !in archive
    ensures Receipted(cfg, rs + [(d, a.id, Receipt(cfg, a))], archive[(d, a.id) := a], published + [(d, a)])
  {
    hide Receipt;
    var rs', archive' := rs + [(d, a.id, Receipt(cfg, a))], archive[(d, a.id) := a];
    forall k | k in archive' ensures (k.0, k.1, Receipt(cfg, archive'[k])) in rs' {
      if k == (d, a.id) {
        assert rs'[|rs|] == (k.0, k.1, Receipt(cfg, archive'[k]));
      } else {
        assert (k.0, k.1, Receipt(cfg, archive[k])) in rs;
      }
    }
  }

  /* ---------- one call ---------- */

  ghost predicate Core(cfg: Config, s: State) {
    DomainsOk(cfg, s) && LogsOk(s) && ReceiptsOk(cfg, s)
  }

  /** What the invariant says about one live domain. */
  lemma LiveDomain(cfg: Config, s: State, d: nat)
    requires Core(cfg, s) && d in s.domains
    ensures DomainOk(cfg, d, s.domains[d], s.archive, s.allowlist)
    ensures NewProofs(s.events, d) == Log(d, s.domains[d], s.archive)
    ensures d !in s.removed && d < s.nextDomainId && ArchiveOk(cfg, s.nextDomainId, s.archive)
  {
  }

  /** Replacing one domain together with what is filed and announced under it. */
  lemma CoreStep(cfg: Config, s: State, t: State, d: nat, dom: Domain)
    requires DomainsOk(cfg, s) && LogsOk(s) && d in s.domains && d !in s.removed && d < s.nextDomainId
    requires t.domains == s.domains[d := dom] && t.removed == s.removed && t.nextDomainId == s.nextDomainId
    requires SameEntriesElsewhere(d, s.allowlist, t.allowlist)
    requires SameElsewhere(d, s.archive, t.archive)
    requires ArchiveOk(cfg, t.nextDomainId, t.archive)
    requires DomainOk(cfg, d, dom, t.archive, t.allowlist)
    requires forall x :: x != d ==> NewProofs(t.events, x) == NewProofs(s.events, x)
    requires NewProofs(t.events, d) == Log(d, dom, t.archive)
    ensures DomainsOk(cfg, t) && LogsOk(t)
  {
    hide NewProofs, Receipts, DomainsOk, LogsOk, DomainOk, Log, ArchiveOk;
    SetDomain(cfg, s, t, d, dom);
    SetLog(s, t, d);
  }

  /** Calls that replace at most one domain's record, without touching its log. */
  lemma DomainStep(cfg: Config, s: State, t: State, d: nat, dom: Domain, es: seq<Event>)
    requires Core(cfg, s) && d in s.domains && Quiet(es)
    requires t == s.(domains := s.domains[d := dom], allowlist := t.allowlist, balances := t.balances,
                     events := s.events + es)
    requires SameEntriesElsewhere(d, s.allowlist, t.allowlist)
    requires DomainOk(cfg, d, dom, s.archive, t.allowlist)
    requires Log(d, dom, s.archive) == Log(d, s.domains[d], s.archive)
    ensures Core(cfg, t)
  {
    hide NewProofs, Receipts, DomainsOk, LogsOk, Receipted, DomainOk, Log, ArchiveOk;
    LiveDomain(cfg, s, d);
    QuietEvents(s.events, es);
    CoreStep(cfg, s, t, d, dom);
  }

  lemma QuietStep(cfg: Config, s: State, t: State, es: seq<Event>)
    requires Core(cfg, s) && Quiet(es)
    requires t == s.(balances := t.balances, events := s.events + es)
    ensures Core(cfg, t)
  {
    hide NewProofs, Receipts, DomainOk, RemovedOk, ArchiveOk, Log, Receipted;
    QuietEvents(s.events, es);
  }

  lemma AcceptCore(cfg: Config, s: State, t: State, d: nat, held: Domain, e: StatementEntry, es: seq<Event>)
    requires Core(cfg, s) && d in s.domains && Quiet(es)
    requires t == s.(domains := s.domains[d := held],
                     events := s.events + [NewProof(e.statement, d, s.domains[d].next.id)] + es)
    requires DomainOk(cfg, d, held, s.archive, s.allowlist)
    requires Log(d, held, s.archive) == Log(d, s.domains[d], s.archive) + [(s.domains[d].next.id, e.statement)]
    ensures Core(cfg, t)
  {
    hide NewProofs, Receipts, DomainsOk, LogsOk, Receipted, DomainOk, Log, ArchiveOk;
    LiveDomain(cfg, s, d);
    var announcement := NewProof(e.statement, d, s.domains[d].next.id);
    LastEvent(s.events, announcement);
    QuietEvents(s.events + [announcement], es);
    CoreStep(cfg, s, t, d, held);
  }

  lemma AcceptStep(cfg: Config, s: State, d: nat, e: StatementEntry)
    requires Core(cfg, s) && d in s.domains && s.domains[d].state == Ready && s.domains[d].CanAddStatement()
    ensures AcceptStatement(cfg, s, d, e).Done? && Core(cfg, AcceptStatement(cfg, s, d, e).state)
  {
    hide NewProofs, Receipts, Core, DomainOk, Log, AppendStatement, HandleHoldState, Quiet;
    var dom := s.domains[d];
    LiveDomain(cfg, s, d);
    AcceptKeepsDomain(cfg, d, dom, s.archive, s.allowlist, e);
    var (appended, es) := AppendStatement(cfg, dom, e).0.value;
    var (held, hs) := HandleHoldState(appended, s.allowlist);
    var t := AcceptStatement(cfg, s, d, e).state;
    assert t.events == s.events + [NewProof(e.statement, d, dom.next.id)] + (es + hs);
    QuietConcat(es, hs);
    AcceptCore(cfg, s, t, d, held, e, es + hs);
  }

  lemma ArchiveGrows(cfg: Config, next: nat, archive: Archive, d: nat, a: AggregationEntry)
    requires ArchiveOk(cfg, next, archive) && d < next && 1 <= a.id <= U64_MAX
    requires 1 <= |a.statements| <= a.size <= cfg.layout.aggregationSize
    ensures ArchiveOk(cfg, next, archive[(d, a.id) := a])
  {
  }

  lemma PublishCore(cfg: Config, s: State, t: State, d: nat, held: Domain, a: AggregationEntry, es: seq<Event>)
    requires Core(cfg, s) && d in s.domains && Quiet(es)
    requires t == s.(domains := s.domains[d := held], balances := t.balances, published := s.published + [(d, a)],
                     archive := s.archive[(d, a.id) := a],
                     events := s.events + es + [NewAggregationReceipt(d, a.id, Receipt(cfg, a))])
    requires (d, a.id) !in s.archive && 1 <= a.id <= U64_MAX
    requires 1 <= |a.statements| <= a.size <= cfg.layout.aggregationSize
    requires DomainOk(cfg, d, held, t.archive, s.allowlist)
    requires Log(d, held, t.archive) == Log(d, s.domains[d], s.archive)
    ensures Core(cfg, t)
  {
    hide NewProofs, Receipts, DomainsOk, LogsOk, Receipted, DomainOk, Log, Receipt, ArchiveOk;
    LiveDomain(cfg, s, d);
    ArchiveGrows(cfg, s.nextDomainId, s.archive, d, a);
    QuietEvents(s.events, es);
    LastEvent(s.events + es, NewAggregationReceipt(d, a.id, Receipt(cfg, a)));
    AddReceipt(cfg, Receipts(s.events), s.archive, s.published, d, a);
    CoreStep(cfg, s, t, d, held);
  }

  lemma PublishStep(cfg: Config, s: State, origin: Option<User>, d: nat, id: nat, pay: nat -> Payment, dispatched: bool)
    requires Core(cfg, s) && Publish(cfg, s, origin, d, id, pay, dispatched).Done?
    ensures Core(cfg, Publish(cfg, s, origin, d, id, pay, dispatched).state)
  {
    hide NewProofs, Receipts, Core, DomainOk, Log, TakeAggregation, HandleHoldState, PayFrom, Receipt, Quiet;
    var dom := s.domains[d];
    LiveDomain(cfg, s, d);
    TakeKeepsDomain(cfg, d, dom, s.archive, s.allowlist, id);
    var (taken, es, found) := TakeAggregation(dom, id);
    var (held, hs) := HandleHoldState(taken, s.allowlist);
    var t := Publish(cfg, s, origin, d, id, pay, dispatched).state;
    assert t.events == s.events + (es + hs) + [NewAggregationReceipt(d, id, Receipt(cfg, found.value))];
    QuietConcat(es, hs);
    PublishCore(cfg, s, t, d, held, found.value, es + hs);
  }

  /** A fresh domain has nothing filed under its id. */
  lemma FreshDomain(cfg: Config, s: State, dom: Domain)
    requires DomainsOk(cfg, s) && dom.id == s.nextDomainId && dom.state == Ready && Shaped(cfg, dom)
    requires dom.shouldPublish == map[] && dom.next.id == 1 && dom.next.statements == []
    ensures DomainOk(cfg, dom.id, dom, s.archive, s.allowlist) && Log(dom.id, dom, s.archive) == []
    ensures ArchiveOk(cfg, s.nextDomainId + 1, s.archive)
  {
    hide DomainOk, RemovedOk, Shaped;
    assert Submitters(s.allowlist, dom.id) == {};
    assert Contiguous(dom.id, dom.shouldPublish, s.archive, 1);
    assert LogBelow(dom.id, dom.shouldPublish, s.archive, 1) == LogBelow(dom.id, dom.shouldPublish, s.archive, 0) + [];
    IsOk(cfg, dom, s);
  }

  lemma IsOk(cfg: Config, dom: Domain, s: State)
    requires Shaped(cfg, dom) && Contiguous(dom.id, dom.shouldPublish, s.archive, Frontier(dom))
    requires Staged(dom, s.allowlist)
    ensures DomainOk(cfg, dom.id, dom, s.archive, s.allowlist)
  {
  }

  lemma RegisterCore(cfg: Config, s: State, t: State, dom: Domain)
    requires Core(cfg, s) && s.nextDomainId < U32_MAX
    requires t == s.(domains := s.domains[s.nextDomainId := dom], nextDomainId := s.nextDomainId + 1,
                     events := s.events + [NewDomain(s.nextDomainId)])
    requires dom.id == s.nextDomainId && dom.state == Ready && dom.shouldPublish == map[] && Shaped(cfg, dom)
    requires dom.next.id == 1 && dom.next.statements == []
    ensures Core(cfg, t)
  {
    hide NewProofs, Receipts, Receipted, DomainOk, RemovedOk, ArchiveOk, Log, Shaped;
    FreshDomain(cfg, s, dom);
    QuietEvents(s.events, [NewDomain(s.nextDomainId)]);
  }

  /** A removed domain leaves nothing behind. */
  lemma LastWords(cfg: Config, d: nat, dom: Domain, gone: Domain, archive: Archive, allowlist: Allowlist)
    requires DomainOk(cfg, d, dom, archive, allowlist) && dom.state == Removable
    requires gone == dom.(state := Removed, ticketDomain := None, ticketAllowlist := None)
    ensures RemovedOk(d, gone, archive, allowlist) && Log(d, gone, archive) == Log(d, dom, archive)
  {
  }

  lemma UnregisterCore(cfg: Config, s: State, t: State, d: nat, gone: Domain)
    requires Core(cfg, s) && d in s.domains && s.domains[d].state == Removable
    requires gone == s.domains[d].(state := Removed, ticketDomain := None, ticketAllowlist := None)
    requires t == s.(domains := s.domains - {d}, removed := s.removed[d := gone], refunds := t.refunds,
                     events := s.events + [DomainStateChanged(d, Removed)])
    ensures Core(cfg, t)
  {
    hide NewProofs, Receipts, Receipted, DomainOk, RemovedOk, ArchiveOk, Log;
    QuietEvents(s.events, [DomainStateChanged(d, Removed)]);
    LastWords(cfg, d, s.domains[d], gone, s.archive, s.allowlist);
  }

  /** Changes of state, fee or tickets leave what is filed in a domain alone. */
  lemma Relabel(cfg: Config, d: nat, dom: Domain, after: Domain, archive: Archive, allowlist: Allowlist,
                allowlist': Allowlist)
    requires DomainOk(cfg, d, dom, archive, allowlist)
    requires after == dom.(state := after.state, delivery := after.delivery, ticketAllowlist := after.ticketAllowlist)
    requires Staged(after, allowlist') && (after.state == Ready ==> dom.state == Ready)
    ensures DomainOk(cfg, d, after, archive, allowlist') && Log(d, after, archive) == Log(d, dom, archive)
  {
  }

  lemma HaltStep(cfg: Config, s: State, origin: Option<User>, d: nat)
    requires Core(cfg, s) && HoldDomain(s, origin, d).Done?
    ensures Core(cfg, HoldDomain(s, origin, d).state)
  {
    hide Core, NewProofs, Receipts, Log, Shaped, Contiguous;
    LiveDomain(cfg, s, d);
    var held := UpdateHoldState(s.domains[d], s.allowlist);
    Relabel(cfg, d, s.domains[d], held, s.archive, s.allowlist, s.allowlist);
    DomainStep(cfg, s, HoldDomain(s, origin, d).state, d, held, [DomainStateChanged(d, held.state)]);
  }

  lemma SetFeeStep(cfg: Config, s: State, origin: Option<User>, d: nat, fee: nat, tip: nat)
    requires Core(cfg, s) && SetTotalDeliveryFee(s, origin, d, fee, tip).Done?
    ensures Core(cfg, SetTotalDeliveryFee(s, origin, d, fee, tip).state)
  {
    hide Core, NewProofs, Receipts, Log, Shaped, Contiguous;
    LiveDomain(cfg, s, d);
    var t := SetTotalDeliveryFee(s, origin, d, fee, tip).state;
    Relabel(cfg, d, s.domains[d], t.domains[d], s.archive, s.allowlist, s.allowlist);
    DomainStep(cfg, s, t, d, t.domains[d], []);
  }

  lemma AddStep(cfg: Config, s: State, origin: Option<User>, d: nat, submitters: Batch, updated: bool)
    requires Core(cfg, s) && AllowlistSubmitters(s, origin, d, submitters, updated).Done?
    ensures Core(cfg, AllowlistSubmitters(s, origin, d, submitters, updated).state)
  {
    hide Core, NewProofs, Receipts, Log, Shaped, Contiguous;
    LiveDomain(cfg, s, d);
    var t := AllowlistSubmitters(s, origin, d, submitters, updated).state;
    Relabel(cfg, d, s.domains[d], t.domains[d], s.archive, s.allowlist, t.allowlist);
    DomainStep(cfg, s, t, d, t.domains[d], []);
  }

  lemma DropStep(cfg: Config, s: State, origin: Option<User>, d: nat, submitters: Batch, updated: bool)
    requires Core(cfg, s) && RemoveSubmitters(s, origin, d, submitters, updated).Done?
    ensures Core(cfg, RemoveSubmitters(s, origin, d, submitters, updated).state)
  {
    hide Core, NewProofs, Receipts, Log, Shaped, Contiguous, HandleHoldState;
    LiveDomain(cfg, s, d);
    var dom := s.domains[d];
    var t := RemoveSubmitters(s, origin, d, submitters, updated).state;
    var counted := Recount(dom, TicketCount(dom) - |Entries(d, submitters) * s.allowlist|, updated).value;
    HoldEffect(cfg, counted, t.allowlist);
    Relabel(cfg, d, dom, t.domains[d], s.archive, s.allowlist, t.allowlist);
    DomainStep(cfg, s, t, d, t.domains[d], HandleHoldState(counted, t.allowlist).1);
  }

  lemma RegisterStep(cfg: Config, s: State, c: Call)
    requires Core(cfg, s) && c.RegisterDomain? && Apply(cfg, s, c).Done?
    ensures Core(cfg, Apply(cfg, s, c).state)
  {
    hide Core, ComputeEncodedSize;
    NextIdFits(cfg, s);
    var t := Apply(cfg, s, c).state;
    RegisterCore(cfg, s, t, t.domains[s.nextDomainId]);
  }

  lemma NextIdFits(cfg: Config, s: State)
    requires Core(cfg, s)
    ensures s.nextDomainId <= U32_MAX
  {
  }

  lemma UnregisterStep(cfg: Config, s: State, origin: Option<User>, d: nat)
    requires Core(cfg, s) && Unregister(s, origin, d).Done?
    ensures Core(cfg, Unregister(s, origin, d).state)
  {
    hide Core;
    var t := Unregister(s, origin, d).state;
    UnregisterCore(cfg, s, t, d, t.removed[d]);
  }

  lemma NewBlock(cfg: Config, s: State)
    requires Core(cfg, s)
    ensures Core(cfg, s.(published := []))
  {
    hide NewProofs, Receipts, DomainOk, RemovedOk, ArchiveOk, Log;
  }

  /** Reserving funds for a statement never panics: the fee is divided by a positive size, and
      a failed second hold undoes the first one exactly. */
  lemma ReserveSafe(b: Balances, dom: Domain, who: Account, q: Quote)
    requires dom.next.size >= 1
    ensures !ReserveCurrency(b, dom, who, q).ReservePanic?
    ensures ReserveCurrency(b, dom, who, q).Unfunded? ==> ReserveCurrency(b, dom, who, q).balances == b
  {
    var amount := Share(q.PublishFee(), dom.next.size);
    hide Share;
    HoldThenRelease(b, Aggregation, who, amount);
  }

  lemma SubmitStep(cfg: Config, s: State, account: Option<Account>, domain: Option<nat>, statement: Digest, q: Quote)
    requires Core(cfg, s) && OnProofVerified(cfg, s, account, domain, statement, q).Done?
    ensures Core(cfg, OnProofVerified(cfg, s, account, domain, statement, q).state)
  {
    hide Core, AcceptStatement, ReserveCurrency, MayAddProof;
    var t := OnProofVerified(cfg, s, account, domain, statement, q).state;
    if t.domains == s.domains && t == s.(balances := t.balances,
                                         events := t.events) && s.events < t.events && Quiet(t.events[|s.events|..]) {
      QuietStep(cfg, s, t, t.events[|s.events|..]);
    } else if t != s {
      var d, who := domain.value, account.value;
      var r := ReserveCurrency(s.balances, s.domains[d], who, q);
      QuietStep(cfg, s, s.(balances := r.balances), []);
      AcceptStep(cfg, s.(balances := r.balances), d, StatementEntry(who, r.reserve, statement));
    }
  }

  /** Every call keeps the invariant. */
  lemma CallKeepsCore(cfg: Config, s: State, c: Call)
    requires Core(cfg, s)
    ensures Core(cfg, Next(cfg, s, c))
  {
    hide Core, OnProofVerified, Publish, Register, HoldDomain, Unregister, SetTotalDeliveryFee, AllowlistSubmitters,
         RemoveSubmitters;
    if Apply(cfg, s, c).Done? {
      match c
      case Submit(account, domain, statement, quote) => SubmitStep(cfg, s, account, domain, statement, quote);
      case Aggregate(origin, d, id, pay, dispatched) => PublishStep(cfg, s, origin, d, id, pay, dispatched);
      case RegisterDomain(_, _, _, _, _, _, _, _, _) => RegisterStep(cfg, s, c);
      case Halt(origin, d) => HaltStep(cfg, s, origin, d);
      case UnregisterDomain(origin, d) => UnregisterStep(cfg, s, origin, d);
      case SetFee(origin, d, fee, tip) => SetFeeStep(cfg, s, origin, d, fee, tip);
      case AddSubmitters(origin, d, submitters, updated) => AddStep(cfg, s, origin, d, submitters, updated);
      case DropSubmitters(origin, d, submitters, updated) => DropStep(cfg, s, origin, d, submitters, updated);
      case OnInitialize => NewBlock(cfg, s);
      case OtherPallets(free) => QuietStep(cfg, s, s.(balances := s.balances.(free := free)), []);
    }
  }
}
