/**
 Who may do what with a domain, and what a statement costs, said over the stored fields and
 without the pallet's own tests, and that the two agree in every valid state.
 */
module AggregateRights {
  import opened Prelude
  import opened Ledger
  import opened AggregateData
  import opened AggregateSpec
  import opened AggregateInvariant

  /** The account may submit: anyone, or the owning account, or an allowlisted one. */
  predicate Permitted(dom: Domain, allowlist: Allowlist, who: Account) {
    || dom.proofRules == AnyoneSubmits
    || (dom.proofRules == OnlyOwnerSubmits && dom.owner == Signer(who))
    || (dom.proofRules == OnlyAllowlisted && (dom.id, who) in allowlist)
  }

  /** A statement fits: it does not complete the open aggregation, or the queue can take that. */
  predicate HasRoom(dom: Domain) {
    |dom.next.statements| + 1 < dom.maxAggregationSize || |dom.shouldPublish| < dom.publishQueueSize
  }

  predicate Owns(who: User, dom: Domain) { who == Manager || who == dom.owner }

  /** The user may publish: anyone, or owners of the domain or of its delivery, or anyone once the
      aggregation is complete. */
  predicate MayPublish(dom: Domain, who: User, a: AggregationEntry) {
    || dom.aggregateRules == AnyoneAggregates
    || Owns(who, dom) || who == Signer(dom.delivery.owner)
    || (dom.aggregateRules == OnlyOwnerUncompleted && |a.statements| == dom.maxAggregationSize)
  }

  /** Nothing waits in the domain: no statement and no allowlisted submitter. */
  ghost predicate Idle(dom: Domain, allowlist: Allowlist) {
    dom.shouldPublish == map[] && dom.next.statements == [] && forall a :: (dom.id, a) !in allowlist
  }

  /** A statement's part of the estimate plus tip, which saturate at 128 bits. */
  function PublishShare(q: Quote, dom: Domain): nat
    requires dom.maxAggregationSize >= 1
  {
    var sum := q.estimated + if q.tip.Some? then q.tip.value else 0;
    (if sum < 0x1_0000_0000_0000_0000_0000_0000_0000_0000 then sum else 0xFFFF_FFFF_FFFF_FFFF_FFFF_FFFF_FFFF_FFFF)
    / dom.maxAggregationSize
  }

  /** A statement's part of the delivery fee plus tip, which wrap around at 128 bits. */
  function DeliveryShare(dom: Domain): nat
    requires dom.maxAggregationSize >= 1
  {
    (dom.delivery.fee + dom.delivery.ownerTip) % 0x1_0000_0000_0000_0000_0000_0000_0000_0000 / dom.maxAggregationSize
  }

  /** The aggregation waiting under an id, if any. */
  predicate Waits(dom: Domain, id: nat) {
    id in dom.shouldPublish || (id == dom.next.id && dom.next.statements != [])
  }

  function Waiting(dom: Domain, id: nat): AggregationEntry {
    if id in dom.shouldPublish then dom.shouldPublish[id] else dom.next
  }

  lemma RoomAgrees(cfg: Config, dom: Domain)
    requires Shaped(cfg, dom)
    ensures dom.CanAddStatement() <==> HasRoom(dom)
  {
  }

  lemma PermittedAgrees(dom: Domain, allowlist: Allowlist, who: Account)
    ensures MayAddProof(dom, allowlist, who) == Some(true) <==> Permitted(dom, allowlist, who)
    ensures MayAddProof(dom, allowlist, who).None? <==> dom.proofRules == OnlyOwnerSubmits && dom.owner == Manager
  {
  }

  lemma PublishAgrees(cfg: Config, dom: Domain, who: User, id: nat)
    requires Shaped(cfg, dom) && Waits(dom, id)
    ensures MayAggregate(dom, who, Waiting(dom, id)) <==> MayPublish(dom, who, Waiting(dom, id))
  {
  }

  lemma IdleAgrees(dom: Domain, allowlist: Allowlist)
    requires dom.proofRules != OnlyAllowlisted ==> Submitters(allowlist, dom.id) == {}
    ensures Drained(dom, allowlist) <==> Idle(dom, allowlist)
  {
    assert forall a :: (dom.id, a) in allowlist <==> a in Submitters(allowlist, dom.id);
  }

  lemma SharesAgree(cfg: Config, dom: Domain, q: Quote)
    requires Shaped(cfg, dom)
    ensures Share(q.PublishFee(), dom.next.size) == PublishShare(q, dom)
    ensures Share(dom.delivery.TotalFee(), dom.next.size) == DeliveryShare(dom)
  {
  }
}
