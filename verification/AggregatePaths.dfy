/** Inclusion paths against emitted receipts, end to end. */
module AggregatePaths {
  import opened Prelude
  import opened Ledger
  import opened Merkle
  import opened AggregateData
  import opened AggregateSpec
  import opened AggregateInvariant
  import opened AggregatePreservation
  import opened AggregateTheorems

  lemma {:induction false} FirstPublishedIs(published: seq<(nat, AggregationEntry)>, d: nat, id: nat)
    ensures FirstPublished(published, d, id).Some? ==>
              && FirstPublished(published, d, id).value.id == id
              && (d, FirstPublished(published, d, id).value) in published
    ensures FirstPublished(published, d, id).None? ==> forall p :: p in published ==> p.0 != d || p.1.id != id
  {
    if published != [] {
      FirstPublishedIs(published[1..], d, id);
      assert forall p :: p in published ==> p == published[0] || p in published[1..];
    }
  }

  lemma {:induction false} PositionIs(es: seq<StatementEntry>, statement: Digest)
    ensures Position(es, statement) <= |es|
    ensures Position(es, statement) < |es| ==> es[Position(es, statement)].statement == statement
    ensures forall k :: 0 <= k < Position(es, statement) ==> es[k].statement != statement
  {
    if es != [] && es[0].statement != statement {
      PositionIs(es[1..], statement);
      forall k | 0 <= k < Position(es, statement) ensures es[k].statement != statement {
        assert k == 0 || es[k] == es[1..][k - 1];
      }
    }
  }

  /** What the block's list finds is what was archived under that id. */
  lemma PublishedIsArchived(cfg: Config, s: State, d: nat, id: nat)
    requires Core(cfg, s) && FirstPublished(s.published, d, id).Some?
    ensures (d, id) in s.archive && s.archive[(d, id)] == FirstPublished(s.published, d, id).value
    ensures (d, id, Receipt(cfg, s.archive[(d, id)])) in Receipts(s.events)
  {
    hide DomainsOk, LogsOk, Receipts, Receipt;
    FirstPublishedIs(s.published, d, id);
    var a := FirstPublished(s.published, d, id).value;
    var i :| 0 <= i < |s.published| && s.published[i] == (d, a);
  }

  /** The position at which a leaf first occurs. */
  ghost predicate FirstAt(leaves: seq<Bytes>, leaf: Bytes, i: nat) {
    i < |leaves| && leaves[i] == leaf && forall k :: 0 <= k < i ==> leaves[k] != leaf
  }

  /** In every reachable state: a path handed out is for the statement asked for, at the position
      where it was first announced, comes with the number of statements announced and the one
      receipt emitted for that domain and id, and the client's verifier accepts it. It is
      handed out exactly when the aggregation is in the block's list and the statement was
      announced for it. */
  lemma PathsVerify(cfg: Config, free: multiset<Account>, calls: seq<Call>, d: nat, id: nat, statement: Digest)
    ensures var s := After(cfg, free, calls);
            var r := GetStatementPath(cfg, s.published, d, id, statement);
            && (r.Found? ==>
                  && r.proof.leaf == statement && (d, id, r.root) in Receipts(s.events)
                  && Accepts(cfg.hash, r.proof, r.root)
                  && FirstAt(Announced(s.events, d, id), statement, r.proof.index)
                  && r.proof.leaves == |Announced(s.events, d, id)|)
            && (r.ReceiptNotPublished? <==> forall p :: p in s.published ==> p.0 != d || p.1.id != id)
            && (!r.ReceiptNotPublished? ==> (r.Found? <==> statement in Announced(s.events, d, id)))
            && !r.IndexOutOfBounds?
  {
    hide After, Core, Announced, MerkleProof, Accepts, Receipts, MerkleRoot;
    Reachable(cfg, free, calls);
    var s := After(cfg, free, calls);
    FirstPublishedIs(s.published, d, id);
    if FirstPublished(s.published, d, id).Some? {
      PublishedIsArchived(cfg, s, d, id);
      FiledUnder(cfg, s, d, id);
      AnnouncedThenPublished(cfg, free, calls, d, id);
      var a := s.archive[(d, id)];
      PositionIs(a.statements, statement);
      var i := Position(a.statements, statement);
      if i < |a.statements| {
        assert Statements(a)[i] == statement && forall k :: 0 <= k < i ==> Statements(a)[k] != statement;
        HonestPath(cfg, a, i);
      } else {
        assert forall k :: 0 <= k < |a.statements| ==> Statements(a)[k] != statement;
      }
    }
  }

  lemma HonestPath(cfg: Config, a: AggregationEntry, i: nat)
    requires i < |a.statements|
    ensures MerkleProof(cfg.hash, Statements(a), i).leaf == a.statements[i].statement
    ensures MerkleProof(cfg.hash, Statements(a), i).leaves == |a.statements|
    ensures MerkleProof(cfg.hash, Statements(a), i).index == i
    ensures Accepts(cfg.hash, MerkleProof(cfg.hash, Statements(a), i), Receipt(cfg, a))
  {
    HonestProofAccepted(cfg.hash, Statements(a), i);
  }

  /** Whatever convinces the verifier against an emitted receipt was announced for that domain and
      aggregation id, unless the hash collides on inputs that are written down. */
  lemma ReceiptsSound(cfg: Config, free: multiset<Account>, calls: seq<Call>, i: nat, proof: InclusionProof)
    requires i < |Receipts(After(cfg, free, calls).events)|
    requires |proof.leaf| != 64 && Accepts(cfg.hash, proof, Receipts(After(cfg, free, calls).events)[i].2)
    ensures var s := After(cfg, free, calls);
            var (d, id, root) := Receipts(s.events)[i];
            || proof.leaf in Announced(s.events, d, id)
            || Collision(cfg.hash, TreeInputs(cfg.hash, Announced(s.events, d, id)), VerifierInputs(cfg.hash, proof))
  {
    hide After, Announced, Accepts, Receipts, MerkleRoot, TreeInputs, VerifierInputs, Collision;
    ReceiptsCommitToAnnouncements(cfg, free, calls, i);
    var s := After(cfg, free, calls);
    var (d, id, root) := Receipts(s.events)[i];
    AnnouncedAreHashes(s.events, d, id);
    AcceptedLeafWasAggregated(cfg.hash, Announced(s.events, d, id), proof);
  }

  lemma AnnouncedAreHashes(events: seq<Event>, d: nat, id: nat)
    ensures forall l :: l in Announced(events, d, id) ==> |l| == 32
  {
    SelectedAreHashes(NewProofs(events, d), id);
  }

  lemma {:induction false} SelectedAreHashes(log: seq<(nat, Digest)>, id: nat)
    ensures forall l :: l in Select(log, id) ==> |l| == 32
    decreases |log|
  {
    if log != [] { SelectedAreHashes(log[..|log| - 1], id); }
  }

  /* ---------- within a block ---------- */

  lemma PublishedGrows(cfg: Config, s: State, c: Call)
    requires !c.OnInitialize?
    ensures s.published <= Next(cfg, s, c).published
  {
    hide AppendStatement, HandleHoldState, TakeAggregation, ReserveCurrency, PayFrom, Receipt;
  }

  lemma {:induction false} BlockKeepsPublished(cfg: Config, s: State, calls: seq<Call>)
    requires forall i :: 0 <= i < |calls| ==> !calls[i].OnInitialize?
    ensures s.published <= Run(cfg, s, calls).published
    decreases |calls|
  {
    hide Next;
    if calls != [] {
      PublishedGrows(cfg, s, calls[0]);
      BlockKeepsPublished(cfg, Next(cfg, s, calls[0]), calls[1..]);
    }
  }

  lemma PublishLists(cfg: Config, s: State, c: Call)
    requires Core(cfg, s) && c.Aggregate? && Apply(cfg, s, c).Done?
    ensures exists p :: p in Next(cfg, s, c).published && p.0 == c.domainId && p.1.id == c.aggregationId
  {
    hide Core, HandleHoldState, PayFrom, Receipt, TakeAggregation;
    var d, id := c.domainId, c.aggregationId;
    LiveDomain(cfg, s, d);
    TakeEffect(cfg, d, s.domains[d], s.archive, id);
    var a := TakeAggregation(s.domains[d], id).2.value;
    assert Next(cfg, s, c).published[|s.published|] == (d, a);
  }

  lemma {:induction false} RunConcat(cfg: Config, s: State, a: seq<Call>, b: seq<Call>)
    ensures Run(cfg, s, a + b) == Run(cfg, Run(cfg, s, a), b)
    decreases |a|
  {
    hide Next;
    if a == [] {
      assert a + b == b;
    } else {
      assert (a + b)[0] == a[0] && (a + b)[1..] == a[1..] + b;
      RunConcat(cfg, Next(cfg, s, a[0]), a[1..], b);
    }
  }

  /** From its publication until the next block starts, every statement of an aggregation has a path. */
  lemma PathsAvailable(cfg: Config, free: multiset<Account>, before: seq<Call>, c: Call, rest: seq<Call>,
                       statement: Digest)
    requires c.Aggregate? && Apply(cfg, After(cfg, free, before), c).Done?
    requires forall i :: 0 <= i < |rest| ==> !rest[i].OnInitialize?
    ensures var s := After(cfg, free, before + [c] + rest);
            statement in Announced(s.events, c.domainId, c.aggregationId) ==>
              GetStatementPath(cfg, s.published, c.domainId, c.aggregationId, statement).Found?
  {
    hide Core, Next, Apply, GetStatementPath, Announced;
    Reachable(cfg, free, before);
    var s0 := After(cfg, free, before);
    PublishLists(cfg, s0, c);
    RunConcat(cfg, Genesis(free), before, [c]);
    RunConcat(cfg, Genesis(free), before + [c], rest);
    RunOne(cfg, s0, c);
    BlockKeepsPublished(cfg, Next(cfg, s0, c), rest);
    PathsVerify(cfg, free, before + [c] + rest, c.domainId, c.aggregationId, statement);
  }

  lemma RunOne(cfg: Config, s: State, c: Call)
    ensures Run(cfg, s, [c]) == Next(cfg, s, c)
  {
    hide Next;
    assert Run(cfg, s, [c]) == Run(cfg, Next(cfg, s, c), []);
  }
}
