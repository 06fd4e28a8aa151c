/** What every reachable state of the aggregation pallet satisfies. */
module AggregateInvariant {
  import opened Prelude
  import opened Ledger
  import opened AggregateData
  import opened AggregateEncoding
  import opened AggregateSpec

  type Archive = map<(nat, nat), AggregationEntry>
  type Allowlist = set<(nat, Account)>

  /** The id the open aggregation has, or would have had if 64 bits were enough. */
  function Frontier(dom: Domain): nat {
    if dom.next.id == 0 then U64_MAX + 1 else dom.next.id
  }

  /** Capacities: the open aggregation has room, the queue is within its bound and holds only
      complete aggregations, and the stand-in with id 0 is empty and closed for submissions. */
  ghost predicate Shaped(cfg: Config, dom: Domain) {
    && 1 <= dom.maxAggregationSize <= cfg.layout.aggregationSize
    && 1 <= dom.publishQueueSize <= cfg.layout.queueSize
    && dom.next.size == dom.maxAggregationSize
    && |dom.next.statements| < dom.maxAggregationSize
    && dom.next.id <= U64_MAX
    && (dom.next.id == 0 ==> dom.next.statements == [] && dom.state != Ready)
    && |dom.shouldPublish| <= dom.publishQueueSize
    && forall id :: id in dom.shouldPublish ==>
         && dom.shouldPublish[id].id == id
         && dom.shouldPublish[id].size == |dom.shouldPublish[id].statements| == dom.maxAggregationSize
  }

  /** Every id from 1 up to `n` is queued or published, never both, and no other id is. */
  ghost predicate Contiguous(d: nat, queue: map<nat, AggregationEntry>, archive: Archive, n: nat) {
    && (forall id :: id in queue ==> 1 <= id < n && (d, id) !in archive)
    && (forall id :: (d, id) in archive ==> 1 <= id < n)
    && (forall id: nat :: 1 <= id < n ==> id in queue || (d, id) in archive)
  }

  /** Off the Ready state, a domain is removable exactly when nothing waits in it; only a domain
      with the allowlist rule has an allowlist. */
  ghost predicate Staged(dom: Domain, allowlist: Allowlist) {
    && dom.state != Removed
    && (dom.state != Ready ==> (dom.state == Removable <==> Drained(dom, allowlist)))
    && (dom.proofRules != OnlyAllowlisted ==> Submitters(allowlist, dom.id) == {})
  }

  /** Tickets belong to the owner account, and the allowlist ticket counts the allowlist. */
  ghost predicate Ticketed(cfg: Config, d: nat, dom: Domain, allowlist: Allowlist) {
    && dom.ticketDomain == (if dom.owner.Signer?
        then Some(Ticket(dom.owner.id, 1, ComputeEncodedSize(cfg.layout, dom.maxAggregationSize, dom.publishQueueSize)))
        else None)
    && (dom.ticketAllowlist.Some? <==> dom.owner.Signer? && dom.proofRules == OnlyAllowlisted)
    && (dom.ticketAllowlist.Some? ==>
         && dom.ticketAllowlist.value.ticket == Ticket(dom.owner.id, dom.ticketAllowlist.value.count, 0)
         && dom.ticketAllowlist.value.count == |Submitters(allowlist, d)|)
  }

  /* ---------- the log of a domain ---------- */

  /** The statements of an aggregation, each with the aggregation's id. */
  function Tagged(a: AggregationEntry): seq<(nat, Digest)> {
    seq(|a.statements|, i requires 0 <= i < |a.statements| => (a.id, a.statements[i].statement))
  }

  function Filed(d: nat, queue: map<nat, AggregationEntry>, archive: Archive, id: nat): seq<(nat, Digest)> {
    if id in queue then Tagged(queue[id]) else if (d, id) in archive then Tagged(archive[(d, id)]) else []
  }

  /** Queued and published aggregations with an id below `n`, by increasing id. */
  function LogBelow(d: nat, queue: map<nat, AggregationEntry>, archive: Archive, n: nat): seq<(nat, Digest)> {
    if n == 0 then [] else LogBelow(d, queue, archive, n - 1) + Filed(d, queue, archive, n - 1)
  }

  function Log(d: nat, dom: Domain, archive: Archive): seq<(nat, Digest)> {
    LogBelow(d, dom.shouldPublish, archive, Frontier(dom)) + Tagged(dom.next)
  }

  /** The statements announced for domain `d`, in order, with the aggregation id announced. */
  function NewProofs(events: seq<Event>, d: nat): seq<(nat, Digest)> {
    if events == [] then []
    else
      var e := events[|events| - 1];
      NewProofs(events[..|events| - 1], d)
        + if e.NewProof? && e.domainId == d then [(e.aggregationId, e.statement)] else []
  }

  /** The receipts emitted so far. */
  function Receipts(events: seq<Event>): seq<(nat, nat, Digest)> {
    if events == [] then []
    else
      var e := events[|events| - 1];
      Receipts(events[..|events| - 1])
        + if e.NewAggregationReceipt? then [(e.domainId, e.aggregationId, e.receipt)] else []
  }

  /* ---------- the invariant ---------- */

  ghost predicate DomainOk(cfg: Config, d: nat, dom: Domain, archive: Archive, allowlist: Allowlist) {
    && dom.id == d && Shaped(cfg, dom) && Contiguous(d, dom.shouldPublish, archive, Frontier(dom))
    && Staged(dom, allowlist)
  }

  ghost predicate RemovedOk(d: nat, dom: Domain, archive: Archive, allowlist: Allowlist) {
    && dom.id == d && dom.state == Removed && Contiguous(d, dom.shouldPublish, archive, Frontier(dom))
    && dom.shouldPublish == map[] && dom.next.statements == [] && Submitters(allowlist, d) == {}
  }

  ghost predicate ArchiveOk(cfg: Config, next: nat, archive: Archive) {
    forall k :: k in archive ==>
      && k.0 < next && archive[k].id == k.1 && 1 <= k.1 <= U64_MAX
      && 1 <= |archive[k].statements| <= archive[k].size <= cfg.layout.aggregationSize
  }

  /** Domains, past and present, and everything filed under them. */
  ghost predicate DomainsOk(cfg: Config, s: State) {
    && s.nextDomainId <= U32_MAX
    && (forall d :: d in s.domains ==> d < s.nextDomainId && d !in s.removed)
    && (forall d :: d in s.removed ==> d < s.nextDomainId)
    && (forall d: nat :: d < s.nextDomainId ==> d in s.domains || d in s.removed)
    && (forall e :: e in s.allowlist ==> e.0 < s.nextDomainId)
    && ArchiveOk(cfg, s.nextDomainId, s.archive)
    && (forall d :: d in s.domains ==> DomainOk(cfg, d, s.domains[d], s.archive, s.allowlist))
    && (forall d :: d in s.removed ==> RemovedOk(d, s.removed[d], s.archive, s.allowlist))
  }

  ghost predicate TicketsOk(cfg: Config, s: State) {
    forall d :: d in s.domains ==> Ticketed(cfg, d, s.domains[d], s.allowlist)
  }

  /** The announced statements of a domain are its aggregations' statements, by increasing id. */
  ghost predicate LogsOk(s: State) {
    && (forall d :: d in s.domains ==> NewProofs(s.events, d) == Log(d, s.domains[d], s.archive))
    && (forall d :: d in s.removed ==> NewProofs(s.events, d) == Log(d, s.removed[d], s.archive))
    && (forall d: nat :: d >= s.nextDomainId ==> NewProofs(s.events, d) == [])
  }

  /** Receipts and published aggregations are one to one, and a block's list is part of them. */
  ghost predicate Receipted(cfg: Config, rs: seq<(nat, nat, Digest)>, archive: Archive,
                            published: seq<(nat, AggregationEntry)>) {
    && (forall i :: 0 <= i < |rs| ==>
          (rs[i].0, rs[i].1) in archive && rs[i].2 == Receipt(cfg, archive[(rs[i].0, rs[i].1)]))
    && (forall i, j :: 0 <= i < j < |rs| ==> (rs[i].0, rs[i].1) != (rs[j].0, rs[j].1))
    && (forall k :: k in archive ==> (k.0, k.1, Receipt(cfg, archive[k])) in rs)
    && (forall i :: 0 <= i < |published| ==>
          && (published[i].0, published[i].1.id) in archive
          && archive[(published[i].0, published[i].1.id)] == published[i].1)
  }

  ghost predicate ReceiptsOk(cfg: Config, s: State) {
    Receipted(cfg, Receipts(s.events), s.archive, s.published)
  }
}
