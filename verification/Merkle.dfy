/**
 The binary Merkle tree behind the aggregation receipt, the inclusion path handed to
 clients, and the client's path verifier.

 The hash is a parameter: every statement holds for every function from byte strings to
 32 byte digests. Soundness is a reduction: a path accepted for a value that was never
 aggregated exhibits two different inputs with the same hash, one hashed while building
 the tree and one hashed by the verifier.
 */
module Merkle {
  import opened Prelude

  type Hasher = Bytes -> Digest

  /** What `merkle_proof` returns besides the root. */
  datatype InclusionProof = InclusionProof(path: seq<Digest>, leaves: nat, index: nat, leaf: Bytes)

  /** The 64 byte input of an inner node. */
  function Join(left: Digest, right: Digest): (joined: Bytes)
    ensures |joined| == 64 && joined[..32] == left && joined[32..] == right
  {
    var l: Bytes, r: Bytes := left, right;
    l + r
  }

  /** One level up: neighbours are hashed together, an unpaired last node moves up unchanged. */
  function Up(h: Hasher, row: seq<Digest>): (up: seq<Digest>)
    ensures |up| == (|row| + 1) / 2
  {
    if |row| <= 1 then row else [h(Join(row[0], row[1]))] + Up(h, row[2..])
  }

  function Root(h: Hasher, row: seq<Digest>): Digest
    requires |row| >= 1
    decreases |row|
  {
    if |row| == 1 then row[0] else Root(h, Up(h, row))
  }

  function LeafRow(h: Hasher, leaves: seq<Bytes>): seq<Digest> {
    seq(|leaves|, i requires 0 <= i < |leaves| => h(leaves[i]))
  }

  /** `merkle_root`: the all-zero digest stands for the empty tree. */
  function MerkleRoot(h: Hasher, leaves: seq<Bytes>): Digest {
    if |leaves| == 0 then seq(32, i => 0) else Root(h, LeafRow(h, leaves))
  }

  /** The siblings met on the way up; a level on which the node has no sibling adds nothing. */
  function Siblings(h: Hasher, row: seq<Digest>, i: nat): seq<Digest>
    requires i < |row|
    decreases |row|
  {
    if |row| == 1 then []
    else
      var sibling := if i % 2 == 1 then i - 1 else i + 1;
      (if sibling < |row| then [row[sibling]] else []) + Siblings(h, Up(h, row), i / 2)
  }

  function MerkleProof(h: Hasher, leaves: seq<Bytes>, i: nat): InclusionProof
    requires i < |leaves|
  {
    InclusionProof(Siblings(h, LeafRow(h, leaves), i), |leaves|, i, leaves[i])
  }

  /** The bytes the verifier hashes for one path element. */
  function Combine(position: int, width: int, node: Digest, p: Digest): Bytes {
    if position % 2 == 1 || position + 1 == width then Join(p, node) else Join(node, p)
  }

  function Climb(h: Hasher, position: int, width: int, node: Digest, path: seq<Digest>): Digest
    decreases |path|
  {
    if path == [] then node
    else Climb(h, position / 2, (width - 1) / 2 + 1, h(Combine(position, width, node, path[0])), path[1..])
  }

  ghost predicate Accepts(h: Hasher, proof: InclusionProof, root: Digest) {
    Climb(h, proof.index, proof.leaves, h(proof.leaf), proof.path) == root
  }

  /** The client's verifier. */
  method VerifyProof(h: Hasher, proof: InclusionProof, root: Digest) returns (ok: bool)
    ensures ok <==> Accepts(h, proof, root)
  {
    var position, width := proof.index, proof.leaves as int;
    var hash := h(proof.leaf);
    for i := 0 to |proof.path|
      invariant Climb(h, position, width, hash, proof.path[i..])
             == Climb(h, proof.index, proof.leaves, h(proof.leaf), proof.path)
    {
      var p := proof.path[i];
      assert proof.path[i..][1..] == proof.path[i + 1..];
      if position % 2 == 1 || position + 1 == width {
        hash := h(Join(p, hash));
      } else {
        hash := h(Join(hash, p));
      }
      position := position / 2;
      width := (width - 1) / 2 + 1;
    }
    ok := root == hash;
  }

  /* ---------- the tree, from the top ---------- */

  /** The largest power of two below `n`. */
  function HalfOf(n: nat): (k: nat)
    requires n >= 2
    ensures 1 <= k < n <= 2 * k
  {
    if n == 2 then 1 else 2 * HalfOf((n + 1) / 2)
  }

  /** The same root top down: the left part takes the largest power of two of the leaves, and a node hashes
      the concatenation of the left and the right root. */
  function TreeHash(h: Hasher, leaves: seq<Bytes>): Digest
    requires |leaves| >= 1
    decreases |leaves|
  {
    if |leaves| == 1 then h(leaves[0])
    else
      var k := HalfOf(|leaves|);
      var left: Bytes, right: Bytes := TreeHash(h, leaves[..k]), TreeHash(h, leaves[k..]);
      h(left + right)
  }

  lemma {:induction false} UpSplits(h: Hasher, row: seq<Digest>, k: nat)
    requires 2 * k <= |row|
    ensures Up(h, row)[..k] == Up(h, row[..2 * k]) && Up(h, row)[k..] == Up(h, row[2 * k..])
  {
    if k == 0 {
      assert row[..0] == [] && row[0..] == row;
    } else {
      UpSplits(h, row[2..], k - 1);
      assert row[2..][..2 * (k - 1)] == row[..2 * k][2..];
      assert row[2..][2 * (k - 1)..] == row[2 * k..];
    }
  }

  lemma {:induction false} RootSplits(h: Hasher, row: seq<Digest>)
    requires |row| >= 2
    ensures var k := HalfOf(|row|);
            Root(h, row) == h(Join(Root(h, row[..k]), Root(h, row[k..])))
    decreases |row|
  {
    var up, k := Up(h, row), HalfOf(|row|);
    if |row| == 2 {
      assert row[2..] == [] && up == [h(Join(row[0], row[1]))];
      assert Root(h, row[..1]) == row[0] && Root(h, row[1..]) == row[1];
    } else {
      var half := HalfOf(|up|);
      RootSplits(h, up);
      UpSplits(h, row, half);
      assert Root(h, row[..k]) == Root(h, up[..half]);
      if |row| - k == 1 { assert Up(h, row[k..]) == row[k..]; }
      assert Root(h, row[k..]) == Root(h, up[half..]);
    }
  }

  lemma {:induction false} RootIsTreeHash(h: Hasher, leaves: seq<Bytes>)
    requires |leaves| >= 1
    ensures MerkleRoot(h, leaves) == TreeHash(h, leaves)
    decreases |leaves|
  {
    hide Root, Up;
    var row := LeafRow(h, leaves);
    if |leaves| == 1 {
      RootOfOne(h, row);
    } else {
      var k := HalfOf(|leaves|);
      RootSplits(h, row);
      RootIsTreeHash(h, leaves[..k]);
      RootIsTreeHash(h, leaves[k..]);
      assert LeafRow(h, leaves[..k]) == row[..k] && LeafRow(h, leaves[k..]) == row[k..];
      JoinIs(Root(h, row[..k]), Root(h, row[k..]));
    }
  }

  lemma RootOfOne(h: Hasher, row: seq<Digest>)
    requires |row| == 1
    ensures Root(h, row) == row[0]
  {
  }

  lemma JoinIs(left: Digest, right: Digest)
    ensures var l: Bytes, r: Bytes := left, right; Join(left, right) == l + r
  {
  }

  /* ---------- completeness ---------- */

  lemma {:induction false} UpAt(h: Hasher, row: seq<Digest>, i: nat)
    requires i < |row|
    ensures 2 * (i / 2) + 1 < |row| ==> Up(h, row)[i / 2] == h(Join(row[2 * (i / 2)], row[2 * (i / 2) + 1]))
    ensures 2 * (i / 2) + 1 == |row| ==> Up(h, row)[i / 2] == row[i]
  {
    if i >= 2 {
      UpAt(h, row[2..], i - 2);
      assert Up(h, row)[i / 2] == Up(h, row[2..])[(i - 2) / 2];
    }
  }

  /** The verifier's coordinates either agree with the tree level, or both are on the right
      edge, where only left siblings remain however far the two have drifted apart. */
  ghost predicate InStep(i: nat, len: nat, position: int, width: int) {
    0 <= position && ((position == i && width == len) || (i + 1 == len && position + 1 == width))
  }

  /** One verifier step hashes exactly the input of the parent node and stays in step. */
  lemma StepMatchesParent(row: seq<Digest>, i: nat, position: int, width: int)
    requires i < |row| && InStep(i, |row|, position, width)
    requires 2 * (i / 2) + 1 < |row|
    ensures Combine(position, width, row[i], row[if i % 2 == 1 then i - 1 else i + 1])
         == Join(row[2 * (i / 2)], row[2 * (i / 2) + 1])
    ensures InStep(i / 2, (|row| + 1) / 2, position / 2, (width - 1) / 2 + 1)
  {
    if i % 2 == 1 {
      assert i == 2 * (i / 2) + 1;
      assert i + 1 == |row| || position == i;
    } else {
      assert i == 2 * (i / 2);
      assert i + 1 != |row|;
    }
  }

  lemma SiblingsStep(h: Hasher, row: seq<Digest>, i: nat)
    requires i < |row| && |row| > 1
    ensures 2 * (i / 2) + 1 < |row| ==>
              Siblings(h, row, i) == [row[if i % 2 == 1 then i - 1 else i + 1]] + Siblings(h, Up(h, row), i / 2)
    ensures 2 * (i / 2) + 1 == |row| ==> i + 1 == |row| && Siblings(h, row, i) == Siblings(h, Up(h, row), i / 2)
  {
    hide Up;
    if i + 1 == |row| && i % 2 == 0 {
      assert [] + Siblings(h, Up(h, row), i / 2) == Siblings(h, Up(h, row), i / 2);
    }
  }

  lemma ClimbStep(h: Hasher, position: int, width: int, node: Digest, sibling: Digest, rest: seq<Digest>)
    ensures Climb(h, position, width, node, [sibling] + rest)
         == Climb(h, position / 2, (width - 1) / 2 + 1, h(Combine(position, width, node, sibling)), rest)
  {
    hide Combine;
    assert ([sibling] + rest)[1..] == rest;
  }

  lemma {:induction false} ClimbReachesRoot(h: Hasher, row: seq<Digest>, i: nat, position: int, width: int)
    requires i < |row| && InStep(i, |row|, position, width)
    ensures Climb(h, position, width, row[i], Siblings(h, row, i)) == Root(h, row)
    decreases |row|
  {
    hide Up, Siblings, Combine, Join;
    if |row| == 1 {
      NoSiblings(h, row);
    } else {
      UpAt(h, row, i);
      SiblingsStep(h, row, i);
      var up := Up(h, row);
      if 2 * (i / 2) + 1 < |row| {
        StepMatchesParent(row, i, position, width);
        ClimbStep(h, position, width, row[i], row[if i % 2 == 1 then i - 1 else i + 1], Siblings(h, up, i / 2));
        ClimbReachesRoot(h, up, i / 2, position / 2, (width - 1) / 2 + 1);
      } else {
        ClimbReachesRoot(h, up, i / 2, position, width);
      }
    }
  }

  lemma NoSiblings(h: Hasher, row: seq<Digest>)
    requires |row| == 1
    ensures Siblings(h, row, 0) == []
  {
  }

  /** Completeness: the honest path of every leaf of every non-empty list is accepted. */
  lemma HonestProofAccepted(h: Hasher, leaves: seq<Bytes>, i: nat)
    requires i < |leaves|
    ensures Accepts(h, MerkleProof(h, leaves, i), MerkleRoot(h, leaves))
  {
    ClimbReachesRoot(h, LeafRow(h, leaves), i, i, |leaves|);
  }

  /* ---------- soundness ---------- */

  ghost function NodesAbove(h: Hasher, row: seq<Digest>): set<Digest>
    decreases |row|
  {
    (set n | n in row) + if |row| <= 1 then {} else NodesAbove(h, Up(h, row))
  }

  ghost function PairInputs(row: seq<Digest>): set<Bytes> {
    if |row| <= 1 then {} else {Join(row[0], row[1])} + PairInputs(row[2..])
  }

  ghost function InputsAbove(h: Hasher, row: seq<Digest>): set<Bytes>
    decreases |row|
  {
    if |row| <= 1 then {} else PairInputs(row) + InputsAbove(h, Up(h, row))
  }

  /** Everything hashed while the tree over `leaves` is built. */
  ghost function TreeInputs(h: Hasher, leaves: seq<Bytes>): set<Bytes> {
    (set l | l in leaves) + InputsAbove(h, LeafRow(h, leaves))
  }

  ghost function ClimbInputs(h: Hasher, position: int, width: int, node: Digest, path: seq<Digest>): set<Bytes>
    decreases |path|
  {
    if path == [] then {}
    else
      var input := Combine(position, width, node, path[0]);
      {input} + ClimbInputs(h, position / 2, (width - 1) / 2 + 1, h(input), path[1..])
  }

  /** Everything the verifier hashes. */
  ghost function VerifierInputs(h: Hasher, proof: InclusionProof): set<Bytes> {
    {proof.leaf} + ClimbInputs(h, proof.index, proof.leaves, h(proof.leaf), proof.path)
  }

  ghost predicate Collision(h: Hasher, xs: set<Bytes>, ys: set<Bytes>) {
    exists x, y :: x in xs && y in ys && x != y && h(x) == h(y)
  }

  /** A node of the next row is a node of this row or the hash of two of them. */
  lemma {:induction false} UpOrigin(h: Hasher, row: seq<Digest>, n: Digest)
    requires n in Up(h, row)
    ensures || n in row
            || exists l: Digest, r: Digest ::
                 l in row && r in row && Join(l, r) in PairInputs(row) && n == h(Join(l, r))
  {
    if |row| > 1 {
      if n == h(Join(row[0], row[1])) {
        assert Join(row[0], row[1]) in PairInputs(row);
      } else {
        assert n in Up(h, row[2..]);
        UpOrigin(h, row[2..], n);
      }
    }
  }

  /** Every node was a node of the first row or is the hash of two nodes. */
  lemma {:induction false} NodeOrigin(h: Hasher, row: seq<Digest>, n: Digest)
    requires n in NodesAbove(h, row)
    ensures n in row
         || exists l: Digest, r: Digest ::
              && l in NodesAbove(h, row) && r in NodesAbove(h, row)
              && Join(l, r) in InputsAbove(h, row) && n == h(Join(l, r))
    decreases |row|
  {
    if n !in row {
      var up := Up(h, row);
      NodeOrigin(h, up, n);
      if n in up {
        UpOrigin(h, row, n);
      }
    }
  }

  lemma {:induction false} RootIsNode(h: Hasher, row: seq<Digest>)
    requires |row| >= 1
    ensures Root(h, row) in NodesAbove(h, row)
    decreases |row|
  {
    if |row| > 1 { RootIsNode(h, Up(h, row)); }
  }

  /** Walking an accepted path downwards never leaves the tree, unless the hash collides. */
  lemma {:induction false} ClimbStaysInTree(h: Hasher, leaves: seq<Bytes>, position: int, width: int, node: Digest,
                                            path: seq<Digest>)
    requires forall l :: l in leaves ==> |l| != 64
    requires Climb(h, position, width, node, path) in NodesAbove(h, LeafRow(h, leaves))
    ensures node in NodesAbove(h, LeafRow(h, leaves))
         || Collision(h, TreeInputs(h, leaves), ClimbInputs(h, position, width, node, path))
    decreases |path|
  {
    if path != [] {
      var row := LeafRow(h, leaves);
      var input := Combine(position, width, node, path[0]);
      var here, rest := ClimbInputs(h, position, width, node, path),
                        ClimbInputs(h, position / 2, (width - 1) / 2 + 1, h(input), path[1..]);
      ClimbStaysInTree(h, leaves, position / 2, (width - 1) / 2 + 1, h(input), path[1..]);
      if h(input) in NodesAbove(h, row) {
        NodeOrigin(h, row, h(input));
        if h(input) in row {
          var k :| 0 <= k < |row| && row[k] == h(input);
          assert leaves[k] in TreeInputs(h, leaves) && leaves[k] != input;
        } else {
          var l: Digest, r: Digest :| && l in NodesAbove(h, row) && r in NodesAbove(h, row)
                                      && Join(l, r) in InputsAbove(h, row) && h(input) == h(Join(l, r));
          assert Join(l, r) in TreeInputs(h, leaves);
          if input == Join(l, r) {
            assert node == l || node == r;
          }
        }
      } else {
        assert rest <= here;
      }
    }
  }

  /** Soundness: a path of any length and with any claimed position that is accepted against
      the root proves its leaf was aggregated, or exhibits a collision. Leaves must not be 64
      bytes long, the length of an inner node's input. */
  lemma AcceptedLeafWasAggregated(h: Hasher, leaves: seq<Bytes>, proof: InclusionProof)
    requires |leaves| >= 1
    requires |proof.leaf| != 64 && forall l :: l in leaves ==> |l| != 64
    requires Accepts(h, proof, MerkleRoot(h, leaves))
    ensures proof.leaf in leaves || Collision(h, TreeInputs(h, leaves), VerifierInputs(h, proof))
  {
    var row := LeafRow(h, leaves);
    RootIsNode(h, row);
    ClimbStaysInTree(h, leaves, proof.index, proof.leaves, h(proof.leaf), proof.path);
    if h(proof.leaf) in NodesAbove(h, row) {
      NodeOrigin(h, row, h(proof.leaf));
      if h(proof.leaf) in row {
        var k :| 0 <= k < |row| && row[k] == h(proof.leaf);
        assert leaves[k] in TreeInputs(h, leaves);
      } else {
        var l: Digest, r: Digest :| && l in NodesAbove(h, row) && r in NodesAbove(h, row)
                                    && Join(l, r) in InputsAbove(h, row) && h(proof.leaf) == h(Join(l, r));
        assert Join(l, r) in TreeInputs(h, leaves);
      }
    } else {
      assert ClimbInputs(h, proof.index, proof.leaves, h(proof.leaf), proof.path) <= VerifierInputs(h, proof);
    }
  }
}
