/** Merkle commitment of a block's transaction ids (internal/crypto/merkle.go). */
module Merkle {
  import opened Types

  type NodeHash = (Hash, Hash) -> Hash

  function Padded(level: seq<Hash>): (r: seq<Hash>)
    ensures |r| % 2 == 0 && |level| <= |r| <= |level| + 1
    ensures level <= r
  {
    if |level| % 2 != 0 then level + [level[|level| - 1]] else level
  }

  function Pairs(node: NodeHash, padded: seq<Hash>): (r: seq<Hash>)
    requires |padded| % 2 == 0
    ensures |r| == |padded| / 2
    ensures forall i :: 0 <= i < |r| ==> r[i] == node(padded[2 * i], padded[2 * i + 1])
  {
    if padded == [] then [] else
    var n := |padded| - 2;
    Pairs(node, padded[..n]) + [node(padded[n], padded[n + 1])]
  }

  function Up(node: NodeHash, level: seq<Hash>): seq<Hash> {
    Pairs(node, Padded(level))
  }

  function Root(node: NodeHash, level: seq<Hash>): Hash
    requires level != []
    decreases |level|
  {
    if |level| == 1 then level[0] else Root(node, Up(node, level))
  }

  function MerkleRoot(node: NodeHash, hashes: seq<Hash>): Hash {
    if hashes == [] then ZERO_HASH else Root(node, hashes)
  }

  /** The loop: each round replaces the level by the hashes of its pairs. */
  method ComputeMerkleRoot(node: NodeHash, hashes: seq<Hash>) returns (r: Hash)
    ensures r == MerkleRoot(node, hashes)
  {
    if |hashes| == 0 { return ZERO_HASH; }
    var level := hashes;
    while |level| > 1
      invariant level != [] && Root(node, level) == Root(node, hashes)
      decreases |level|
    {
      level := HashPairs(node, if |level| % 2 != 0 then level + [level[|level| - 1]] else level);
    }
    r := level[0];
  }

  method HashPairs(node: NodeHash, padded: seq<Hash>) returns (next: seq<Hash>)
    requires |padded| % 2 == 0
    ensures next == Pairs(node, padded)
  {
    next := [];
    var i := 0;
    while i < |padded|
      invariant i % 2 == 0 && i <= |padded|
      invariant next == Pairs(node, padded[..i])
    {
      assert padded[..i + 2][..i] == padded[..i];
      next := next + [node(padded[i], padded[i + 1])];
      i := i + 2;
    }
    assert padded[..i] == padded;
  }

  // ------------------------------------------------------------------------- uniqueness

  ghost predicate InjectiveNode(node: NodeHash) {
    forall a, b, c, d :: node(a, b) == node(c, d) ==> a == c && b == d
  }

  ghost predicate IsLeaf(node: NodeHash, h: Hash) {
    forall a, b :: node(a, b) != h
  }

  ghost predicate NoDuplicates(xs: seq<Hash>) {
    forall i, j :: 0 <= i < j < |xs| ==> xs[i] != xs[j]
  }

  /** `h` sits `k` rounds above the leaves along its left spine. */
  ghost predicate AtHeight(node: NodeHash, h: Hash, k: nat)
    decreases k
  {
    if k == 0 then IsLeaf(node, h)
    else exists l, r :: h == node(l, r) && AtHeight(node, l, k - 1)
  }

  ghost predicate AllAt(node: NodeHash, xs: seq<Hash>, k: nat) {
    forall i :: 0 <= i < |xs| ==> AtHeight(node, xs[i], k)
  }

  lemma {:induction false} HeightIsUnique(node: NodeHash, h: Hash, j: nat, k: nat)
    requires InjectiveNode(node) && AtHeight(node, h, j) && AtHeight(node, h, k)
    ensures j == k
    decreases j
  {
    if j > 0 && k > 0 {
      var l, r :| h == node(l, r) && AtHeight(node, l, j - 1);
      var l', r' :| h == node(l', r') && AtHeight(node, l', k - 1);
      HeightIsUnique(node, l, j - 1, k - 1);
    }
  }

  lemma {:induction false} UpAt(node: NodeHash, xs: seq<Hash>, k: nat)
    requires AllAt(node, xs, k)
    ensures AllAt(node, Up(node, xs), k + 1)
  {
    var p := Padded(xs);
    forall i | 0 <= i < |Up(node, xs)| ensures AtHeight(node, Up(node, xs)[i], k + 1) {
      assert p[2 * i] == xs[2 * i];
      assert Up(node, xs)[i] == node(p[2 * i], p[2 * i + 1]);
    }
  }

  lemma {:induction false} RootAt(node: NodeHash, xs: seq<Hash>, k: nat) returns (m: nat)
    requires xs != [] && AllAt(node, xs, k)
    ensures AtHeight(node, Root(node, xs), m) && m >= k && (|xs| > 1 ==> m > k)
    decreases |xs|
  {
    if |xs| == 1 {
      m := k;
    } else {
      UpAt(node, xs, k);
      m := RootAt(node, Up(node, xs), k + 1);
    }
  }

  lemma {:induction false} UpKeepsDistinct(node: NodeHash, xs: seq<Hash>)
    requires InjectiveNode(node) && NoDuplicates(xs)
    ensures NoDuplicates(Up(node, xs))
  {
    var p, up := Padded(xs), Up(node, xs);
    forall i, j | 0 <= i < j < |up| ensures up[i] != up[j] {
      assert p[2 * i] == xs[2 * i] && p[2 * j] == xs[2 * j];
    }
  }

  lemma {:induction false} UpDeterminesLevel(node: NodeHash, xs: seq<Hash>, ys: seq<Hash>)
    requires InjectiveNode(node) && NoDuplicates(xs) && NoDuplicates(ys)
    requires xs != [] && ys != [] && Up(node, xs) == Up(node, ys)
    ensures xs == ys
  {
    var p, q := Padded(xs), Padded(ys);
    forall i | 0 <= i < |p| ensures p[i] == q[i] {
      assert Up(node, xs)[i / 2] == node(p[2 * (i / 2)], p[2 * (i / 2) + 1]);
      assert Up(node, ys)[i / 2] == node(q[2 * (i / 2)], q[2 * (i / 2) + 1]);
    }
    assert p == q;
    PaddingShows(xs, ys);
    PaddingShows(ys, xs);
  }

  /** A list that equals a shorter one once that is padded ends in a duplicate. */
  lemma {:induction false} PaddingShows(xs: seq<Hash>, ys: seq<Hash>)
    requires xs != [] && Padded(xs) == Padded(ys)
    ensures |xs| < |ys| ==> |ys| >= 2 && ys[|ys| - 1] == ys[|ys| - 2]
  {
  }

  lemma {:induction false} SingleIsNotDeeper(node: NodeHash, xs: seq<Hash>, ys: seq<Hash>, k: nat)
    requires InjectiveNode(node) && |xs| == 1 && ys != [] && AllAt(node, xs, k) && AllAt(node, ys, k)
    requires Root(node, ys) == xs[0]
    ensures |ys| == 1
  {
    var n := RootAt(node, ys, k);
    HeightIsUnique(node, xs[0], k, n);
  }

  lemma {:induction false} RootDeterminesLevel(node: NodeHash, xs: seq<Hash>, ys: seq<Hash>, k: nat)
    requires InjectiveNode(node) && NoDuplicates(xs) && NoDuplicates(ys)
    requires xs != [] && ys != [] && AllAt(node, xs, k) && AllAt(node, ys, k)
    requires Root(node, xs) == Root(node, ys)
    ensures xs == ys
    decreases |xs|
  {
    if |xs| == 1 && |ys| > 1 {
      SingleIsNotDeeper(node, xs, ys, k);
    } else if |ys| == 1 && |xs| > 1 {
      SingleIsNotDeeper(node, ys, xs, k);
    } else if |xs| > 1 {
      UpAt(node, xs, k);
      UpAt(node, ys, k);
      UpKeepsDistinct(node, xs);
      UpKeepsDistinct(node, ys);
      var ux, uy := Up(node, xs), Up(node, ys);
      assert Root(node, ux) == Root(node, xs) == Root(node, uy);
      assert |ux| < |xs|;
      RootDeterminesLevel(node, ux, uy, k + 1);
      UpDeterminesLevel(node, xs, ys);
    } else {
      assert xs == [xs[0]] && ys == [ys[0]];
    }
  }

  /** Lists of distinct leaves with the same root are the same list, whatever their lengths. */
  lemma {:induction false} MerkleRootIsUnique(node: NodeHash, xs: seq<Hash>, ys: seq<Hash>)
    requires InjectiveNode(node) && NoDuplicates(xs) && NoDuplicates(ys) && xs != [] && ys != []
    requires forall i :: 0 <= i < |xs| ==> IsLeaf(node, xs[i])
    requires forall i :: 0 <= i < |ys| ==> IsLeaf(node, ys[i])
    requires MerkleRoot(node, xs) == MerkleRoot(node, ys)
    ensures xs == ys
  {
    RootDeterminesLevel(node, xs, ys, 0);
  }

  // ----------------------------------------------------------------- without the duplicate check

  predicate PowerOfTwo(n: nat) {
    n == 1 || (n > 1 && n % 2 == 0 && PowerOfTwo(n / 2))
  }

  /** The largest power of two that divides a length. */
  function LowBit(n: nat): (w: nat)
    requires n > 0
    ensures 0 < w <= n && (n % 2 == 0 ==> w % 2 == 0)
  {
    if n % 2 == 1 then 1 else 2 * LowBit(n / 2)
  }

  /** The list with its last complete subtree repeated. */
  function Twin(xs: seq<Hash>): seq<Hash>
    requires xs != []
  {
    xs + xs[|xs| - LowBit(|xs|)..]
  }

  /** A complete level, pair by pair. */
  lemma {:induction false} UpIs(node: NodeHash, xs: seq<Hash>)
    requires |xs| % 2 == 0
    ensures |Up(node, xs)| == |xs| / 2 && forall i :: 0 <= i < |xs| / 2 ==> Up(node, xs)[i] == node(xs[2 * i], xs[2 * i + 1])
  {
    hide Pairs;
  }

  lemma {:induction false} UpAppend(node: NodeHash, xs: seq<Hash>, ys: seq<Hash>)
    requires |xs| % 2 == 0 && |ys| % 2 == 0
    ensures Up(node, xs + ys) == Up(node, xs) + Up(node, ys)
  {
    hide Up;
    UpIs(node, xs);
    UpIs(node, ys);
    UpIs(node, xs + ys);
    forall i | |xs| / 2 <= i < (|xs| + |ys|) / 2 ensures Up(node, xs + ys)[i] == Up(node, ys)[i - |xs| / 2] {
      var j := i - |xs| / 2;
      assert (xs + ys)[2 * i] == ys[2 * j] && (xs + ys)[2 * i + 1] == ys[2 * j + 1];
    }
  }

  lemma {:induction false} UpTail(node: NodeHash, xs: seq<Hash>, m: nat)
    requires |xs| % 2 == 0 && m % 2 == 0 && m <= |xs|
    ensures |Up(node, xs)| == |xs| / 2 && Up(node, xs[m..]) == Up(node, xs)[m / 2..]
  {
    hide Up;
    UpIs(node, xs);
    UpAppend(node, xs[..m], xs[m..]);
    UpIs(node, xs[..m]);
    assert xs == xs[..m] + xs[m..];
  }

  lemma {:induction false} UpOfTwin(node: NodeHash, xs: seq<Hash>)
    requires xs != [] && |xs| % 2 == 0
    ensures Up(node, xs) != [] && Up(node, Twin(xs)) == Twin(Up(node, xs))
  {
    hide Up;
    var n, w := |xs|, LowBit(|xs|);
    UpTail(node, xs, n - w);
    UpAppend(node, xs, xs[n - w..]);
    assert LowBit(n / 2) == w / 2;
  }

  /** Every list whose length is not a power of two shares its root with a longer one. */
  lemma {:induction false} TwinSharesRoot(node: NodeHash, xs: seq<Hash>)
    requires xs != [] && !PowerOfTwo(|xs|)
    ensures Root(node, Twin(xs)) == Root(node, xs)
    decreases |xs|
  {
    if |xs| % 2 == 1 {
      assert Padded(Twin(xs)) == Padded(xs);
    } else {
      UpOfTwin(node, xs);
      TwinSharesRoot(node, Up(node, xs));
    }
  }

  /** A list of distinct hashes whose length is a power of two shares its root with no other. */
  lemma {:induction false} PowerIsUnique(node: NodeHash, xs: seq<Hash>, ys: seq<Hash>, k: nat)
    requires InjectiveNode(node) && NoDuplicates(xs) && PowerOfTwo(|xs|) && ys != []
    requires AllAt(node, xs, k) && AllAt(node, ys, k) && Root(node, xs) == Root(node, ys)
    ensures xs == ys
    decreases |xs|
  {
    if |xs| == 1 {
      SingleIsNotDeeper(node, xs, ys, k);
      assert xs == [xs[0]] && ys == [ys[0]];
    } else if |ys| == 1 {
      SingleIsNotDeeper(node, ys, xs, k);
    } else {
      UpAt(node, xs, k);
      UpAt(node, ys, k);
      UpKeepsDistinct(node, xs);
      var ux, uy := Up(node, xs), Up(node, ys);
      assert Root(node, ux) == Root(node, xs) && Root(node, uy) == Root(node, ys);
      PowerIsUnique(node, ux, uy, k + 1);
      PairsShow(node, xs, ys);
    }
  }

  lemma {:induction false} PairsShow(node: NodeHash, xs: seq<Hash>, ys: seq<Hash>)
    requires InjectiveNode(node) && NoDuplicates(xs) && |xs| % 2 == 0 && xs != [] && ys != [] && Up(node, xs) == Up(node, ys)
    ensures xs == ys
  {
    var q := Padded(ys);
    forall i | 0 <= i < |xs| ensures xs[i] == q[i] {
      assert Up(node, xs)[i / 2] == node(xs[2 * (i / 2)], xs[2 * (i / 2) + 1]);
      assert Up(node, ys)[i / 2] == node(q[2 * (i / 2)], q[2 * (i / 2) + 1]);
    }
    assert xs == q;
    PaddingShows(ys, xs);
  }

  ghost predicate AllLeaves(node: NodeHash, xs: seq<Hash>) {
    forall i :: 0 <= i < |xs| ==> IsLeaf(node, xs[i])
  }

  /** Without the duplicate check the commitment is ambiguous exactly when the length is not a power of two. */
  lemma {:induction false} TwinExistsIff(node: NodeHash, xs: seq<Hash>)
    requires InjectiveNode(node) && NoDuplicates(xs) && AllLeaves(node, xs) && xs != []
    ensures (exists ys :: ys != xs && ys != [] && AllLeaves(node, ys) && MerkleRoot(node, ys) == MerkleRoot(node, xs)) <==>
            !PowerOfTwo(|xs|)
  {
    hide InjectiveNode, PowerOfTwo, Twin, Root, AllLeaves, NoDuplicates, AllAt;
    if !PowerOfTwo(|xs|) {
      TwinSharesRoot(node, xs);
      TwinOfLeaves(node, xs);
      var ys := Twin(xs);
      assert ys != xs && ys != [] && AllLeaves(node, ys) && MerkleRoot(node, ys) == MerkleRoot(node, xs);
    }
    forall ys | ys != [] && AllLeaves(node, ys) && MerkleRoot(node, ys) == MerkleRoot(node, xs) && PowerOfTwo(|xs|) ensures ys == xs {
      LeavesAreAtZero(node, xs);
      LeavesAreAtZero(node, ys);
      PowerIsUnique(node, xs, ys, 0);
    }
  }

  lemma {:induction false} TwinOfLeaves(node: NodeHash, xs: seq<Hash>)
    requires AllLeaves(node, xs) && xs != []
    ensures AllLeaves(node, Twin(xs)) && |Twin(xs)| > |xs|
  {
    hide IsLeaf;
  }

  lemma {:induction false} LeavesAreAtZero(node: NodeHash, xs: seq<Hash>)
    requires AllLeaves(node, xs)
    ensures AllAt(node, xs, 0)
  {
    hide IsLeaf;
  }
}
