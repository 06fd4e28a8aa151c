/** What holds over every run of the aggregation pallet. */
module AggregateTheorems {
  import opened Prelude
  import opened Ledger
  import opened Merkle
  import opened AggregateData
  import opened AggregateSpec
  import opened AggregateInvariant
  import opened AggregatePreservation
  import opened AggregateFunds
  import opened AggregateDeposits

  ghost predicate Inv(cfg: Config, s: State) {
    Core(cfg, s) && TicketsOk(cfg, s) && Covered(s)
  }

  lemma GenesisInv(cfg: Config, free: multiset<Account>)
    ensures Inv(cfg, Genesis(free)) && Exact(Genesis(free))
  {
  }

  lemma CallKeepsInv(cfg: Config, s: State, c: Call)
    requires Inv(cfg, s)
    ensures Inv(cfg, Next(cfg, s, c))
  {
    hide Core, TicketsOk, Covered, Next;
    CallKeepsCore(cfg, s, c);
    CallKeepsTickets(cfg, s, c);
    CallKeepsFunds(cfg, s, c);
  }

  lemma {:induction false} RunKeepsInv(cfg: Config, s: State, calls: seq<Call>)
    requires Inv(cfg, s)
    ensures Inv(cfg, Run(cfg, s, calls))
    decreases |calls|
  {
    hide Inv, Next;
    if calls != [] {
      CallKeepsInv(cfg, s, calls[0]);
      RunKeepsInv(cfg, Next(cfg, s, calls[0]), calls[1..]);
    }
  }

  /** The state after `calls`, from a genesis with these free balances. */
  function After(cfg: Config, free: multiset<Account>, calls: seq<Call>): State {
    Run(cfg, Genesis(free), calls)
  }

  /** Every run keeps the invariant, whatever is called and whatever the environment answers. */
  lemma Reachable(cfg: Config, free: multiset<Account>, calls: seq<Call>)
    ensures Inv(cfg, After(cfg, free, calls))
  {
    hide Inv, Run;
    GenesisInv(cfg, free);
    RunKeepsInv(cfg, Genesis(free), calls);
  }

  /* ---------- log refinement ---------- */

  /** The statements announced for aggregation `id` of domain `d`, in order. */
  function Announced(events: seq<Event>, d: nat, id: nat): seq<Bytes> {
    Select(NewProofs(events, d), id)
  }

  function Select(log: seq<(nat, Digest)>, id: nat): seq<Bytes> {
    if log == [] then []
    else
      var e := log[|log| - 1];
      Select(log[..|log| - 1], id) + if e.0 == id then [e.1] else []
  }

  lemma {:induction false} SelectConcat(a: seq<(nat, Digest)>, b: seq<(nat, Digest)>, id: nat)
    ensures Select(a + b, id) == Select(a, id) + Select(b, id)
    decreases |b|
  {
    if b == [] {
      assert a + b == a;
    } else {
      assert (a + b)[..|a + b| - 1] == a + b[..|b| - 1];
      SelectConcat(a, b[..|b| - 1], id);
    }
  }

  lemma {:induction false} SelectTagged(a: AggregationEntry, n: nat, id: nat)
    requires n <= |a.statements|
    ensures Select(Tagged(a)[..n], id) == if a.id == id then Statements(a)[..n] else []
  {
    if n > 0 {
      SelectTagged(a, n - 1, id);
      assert Tagged(a)[..n][..n - 1] == Tagged(a)[..n - 1];
    }
  }

  lemma SelectWhole(a: AggregationEntry, id: nat)
    ensures Select(Tagged(a), id) == if a.id == id then Statements(a) else []
  {
    SelectTagged(a, |a.statements|, id);
    assert Tagged(a)[..|a.statements|] == Tagged(a) && Statements(a)[..|a.statements|] == Statements(a);
  }

  /** Entries carry the id they are filed under. */
  ghost predicate FiledById(d: nat, q: map<nat, AggregationEntry>, archive: Archive) {
    (forall k :: k in q ==> q[k].id == k) && (forall k: nat :: (d, k) in archive ==> archive[(d, k)].id == k)
  }

  lemma SelectFiled(d: nat, q: map<nat, AggregationEntry>, archive: Archive, k: nat, id: nat)
    requires FiledById(d, q, archive) && k != id
    ensures Select(Filed(d, q, archive, k), id) == []
  {
    hide Select, Tagged;
    if k in q {
      SelectWhole(q[k], id);
    } else if (d, k) in archive {
      SelectWhole(archive[(d, k)], id);
    } else {
      SelectNothing(id);
    }
  }

  lemma SelectNothing(id: nat)
    ensures Select([], id) == []
  {
  }

  /** Of a log, only the aggregation filed under `id` carries the tag `id`. */
  lemma {:induction false} SelectLog(d: nat, q: map<nat, AggregationEntry>, archive: Archive, n: nat, id: nat)
    requires FiledById(d, q, archive)
    ensures Select(LogBelow(d, q, archive, n), id) == if id < n then Select(Filed(d, q, archive, id), id) else []
  {
    hide Select, Filed, FiledById;
    if n == 0 {
      SelectNothing(id);
    } else {
      SelectLog(d, q, archive, n - 1, id);
      SelectConcat(LogBelow(d, q, archive, n - 1), Filed(d, q, archive, n - 1), id);
      if n - 1 != id { SelectFiled(d, q, archive, n - 1, id); }
    }
  }

  lemma SelectDomainLog(d: nat, dom: Domain, archive: Archive, id: nat)
    requires FiledById(d, dom.shouldPublish, archive) && 1 <= id
    requires Contiguous(d, dom.shouldPublish, archive, Frontier(dom))
    ensures (d, id) in archive ==> Select(Log(d, dom, archive), id) == Statements(archive[(d, id)])
    ensures id in dom.shouldPublish ==> Select(Log(d, dom, archive), id) == Statements(dom.shouldPublish[id])
    ensures id == dom.next.id ==> Select(Log(d, dom, archive), id) == Statements(dom.next)
  {
    hide Select, Tagged, LogBelow, Statements;
    SelectConcat(LogBelow(d, dom.shouldPublish, archive, Frontier(dom)), Tagged(dom.next), id);
    SelectLog(d, dom.shouldPublish, archive, Frontier(dom), id);
    SelectWhole(dom.next, id);
    if id in dom.shouldPublish { SelectWhole(dom.shouldPublish[id], id); }
    if (d, id) in archive { SelectWhole(archive[(d, id)], id); }
  }

  lemma FilingOf(cfg: Config, s: State, d: nat)
    requires Core(cfg, s) && d < s.nextDomainId
    ensures d in s.domains || d in s.removed
    ensures var dom := if d in s.domains then s.domains[d] else s.removed[d];
            && NewProofs(s.events, d) == Log(d, dom, s.archive)
            && FiledById(d, dom.shouldPublish, s.archive)
            && Contiguous(d, dom.shouldPublish, s.archive, Frontier(dom))
  {
    hide NewProofs, Log, Receipted, Staged;
    if d in s.domains {
      assert DomainOk(cfg, d, s.domains[d], s.archive, s.allowlist);
    } else {
      assert RemovedOk(d, s.removed[d], s.archive, s.allowlist);
    }
  }

  lemma FiledUnder(cfg: Config, s: State, d: nat, id: nat)
    requires Core(cfg, s) && (d, id) in s.archive
    ensures d < s.nextDomainId && 1 <= id <= U64_MAX && 1 <= |s.archive[(d, id)].statements| <= U32_MAX
  {
    hide DomainOk, RemovedOk, LogsOk, Receipted;
  }

  /** Log refinement. In every reachable state the statements announced for a live domain are
      those of its published, queued and open aggregations concatenated by increasing id, and
      those announced for a removed domain are all published: none is lost, duplicated or
      reordered. */
  lemma LogRefinement(cfg: Config, free: multiset<Account>, calls: seq<Call>, d: nat)
    ensures var s := After(cfg, free, calls);
            && (d in s.domains ==> NewProofs(s.events, d) == Log(d, s.domains[d], s.archive))
            && (d in s.removed ==> NewProofs(s.events, d) == LogBelow(d, map[], s.archive, Frontier(s.removed[d])))
            && (d !in s.domains && d !in s.removed ==> NewProofs(s.events, d) == [])
  {
    hide After, NewProofs, LogBelow, Receipted, DomainOk;
    Reachable(cfg, free, calls);
    var s := After(cfg, free, calls);
    if d in s.removed {
      assert RemovedOk(d, s.removed[d], s.archive, s.allowlist);
      assert Tagged(s.removed[d].next) == [];
    }
  }

  /** A statement is published under exactly the id it was announced with: aggregation `id` of
      domain `d`, wherever it stands, holds the statements announced for it, in order. */
  lemma AnnouncedThenPublished(cfg: Config, free: multiset<Account>, calls: seq<Call>, d: nat, id: nat)
    ensures var s := After(cfg, free, calls);
            && ((d, id) in s.archive ==> Announced(s.events, d, id) == Statements(s.archive[(d, id)]))
            && (d in s.domains && id in s.domains[d].shouldPublish ==>
                  Announced(s.events, d, id) == Statements(s.domains[d].shouldPublish[id]))
            && (d in s.domains && 1 <= id == s.domains[d].next.id ==>
                  Announced(s.events, d, id) == Statements(s.domains[d].next))
  {
    hide After, Core, Select, Log, Statements, Contiguous, FiledById, NewProofs;
    Reachable(cfg, free, calls);
    var s := After(cfg, free, calls);
    if (d, id) in s.archive { FiledUnder(cfg, s, d, id); }
    if d in s.domains { LiveDomain(cfg, s, d); QueueIdsPositive(cfg, s, d); }
    if d < s.nextDomainId && 1 <= id {
      FilingOf(cfg, s, d);
      SelectDomainLog(d, if d in s.domains then s.domains[d] else s.removed[d], s.archive, id);
    }
  }

  lemma QueueIdsPositive(cfg: Config, s: State, d: nat)
    requires Core(cfg, s) && d in s.domains
    ensures 0 !in s.domains[d].shouldPublish
  {
    hide Core;
    LiveDomain(cfg, s, d);
  }

  /* ---------- receipts ---------- */

  /** Unique publication: over a whole run no domain and aggregation id get two receipts, and
      the id 0 of the stand-in aggregation gets none. Each receipt is the Merkle root of exactly
      the statements announced under its id. */
  lemma ReceiptsCommitToAnnouncements(cfg: Config, free: multiset<Account>, calls: seq<Call>, i: nat)
    requires i < |Receipts(After(cfg, free, calls).events)|
    ensures var s := After(cfg, free, calls);
            var (d, id, root) := Receipts(s.events)[i];
            && 1 <= id <= U64_MAX && |Announced(s.events, d, id)| >= 1
            && root == MerkleRoot(cfg.hash, Announced(s.events, d, id))
            && (forall j :: 0 <= j < |Receipts(s.events)| && j != i ==>
                  (Receipts(s.events)[j].0, Receipts(s.events)[j].1) != (d, id))
  {
    hide After, DomainsOk, LogsOk, Announced, MerkleRoot, Receipts;
    Reachable(cfg, free, calls);
    var s := After(cfg, free, calls);
    var (d, id, root) := Receipts(s.events)[i];
    FiledUnder(cfg, s, d, id);
    AnnouncedThenPublished(cfg, free, calls, d, id);
  }
}
