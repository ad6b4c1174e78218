/** The order on competing tips: more work first, then the smaller hash bytes. */
module ForkChoice {
  import opened Types
  import opened Params
  import opened Arith
  import opened Codec
  import opened Target
  import opened Headers
  import opened BlockRules
  import opened BlockTree

  /** bytes.Compare(a, b) < 0. */
  predicate BytesLess(a: Bytes, b: Bytes) {
    if b == [] then false
    else if a == [] then true
    else a[0] < b[0] || (a[0] == b[0] && BytesLess(a[1..], b[1..]))
  }

  /** The strings agree below `i`, and there the first ends or has the smaller byte. */
  predicate LessAt(a: Bytes, b: Bytes, i: nat) {
    i <= |a| && i < |b| && a[..i] == b[..i] && (i == |a| || a[i] < b[i])
  }

  /** The order of bytes.Compare: decided by the first byte that differs, and a proper prefix comes first. */
  lemma {:induction false} BytesLessIff(a: Bytes, b: Bytes)
    ensures BytesLess(a, b) <==> exists i: nat :: LessAt(a, b, i)
    decreases |a|
  {
    if i: nat :| LessAt(a, b, i) { LessAtIsLess(a, b, i); }
    if BytesLess(a, b) {
      if a == [] {
        assert LessAt(a, b, 0);
      } else if a[0] < b[0] {
        assert LessAt(a, b, 0);
      } else {
        BytesLessIff(a[1..], b[1..]);
        var i: nat :| LessAt(a[1..], b[1..], i);
        assert a[..i + 1] == [a[0]] + a[1..][..i] && b[..i + 1] == [b[0]] + b[1..][..i];
        assert LessAt(a, b, i + 1);
      }
    }
  }

  lemma {:induction false} LessAtIsLess(a: Bytes, b: Bytes, i: nat)
    requires LessAt(a, b, i)
    ensures BytesLess(a, b)
  {
    if i > 0 {
      assert a[0] == a[..i][0] && b[0] == b[..i][0];
      assert a[1..][..i - 1] == a[..i][1..] && b[1..][..i - 1] == b[..i][1..];
      LessAtIsLess(a[1..], b[1..], i - 1);
    }
  }

  lemma {:induction false} BytesLessTrichotomy(a: Bytes, b: Bytes)
    ensures a == b || BytesLess(a, b) || BytesLess(b, a)
    ensures !(BytesLess(a, b) && BytesLess(b, a)) && !BytesLess(a, a)
  {
    if a != [] && b != [] {
      BytesLessTrichotomy(a[1..], b[1..]);
      assert a == [a[0]] + a[1..] && b == [b[0]] + b[1..];
    }
    if a != [] { BytesLessTrichotomy(a[1..], a[1..]); }
  }

  lemma {:induction false} BytesLessTransitive(a: Bytes, b: Bytes, c: Bytes)
    requires BytesLess(a, b) && BytesLess(b, c)
    ensures BytesLess(a, c)
  {
    if a != [] && a[0] == b[0] == c[0] { BytesLessTransitive(a[1..], b[1..], c[1..]); }
  }

  /** The test ProcessBlock makes against the current tip. */
  predicate Beats(work: nat, hash: Hash, tipWork: nat, tipHash: Hash) {
    work > tipWork || (work == tipWork && BytesLess(hash, tipHash))
  }

  lemma {:induction false} BeatsTransitive(w1: nat, h1: Hash, w2: nat, h2: Hash, w3: nat, h3: Hash)
    requires Beats(w1, h1, w2, h2) && (Beats(w2, h2, w3, h3) || (w2 == w3 && h2 == h3))
    ensures Beats(w1, h1, w3, h3)
  {
    if w1 == w2 == w3 && h2 != h3 { BytesLessTransitive(h1, h2, h3); }
  }

  /** Every admitted block other than the tip loses to the tip. */
  ghost predicate BestOf(ix: Index, admitted: set<Hash>, tip: Hash) {
    && tip in admitted && tip in ix
    && forall h :: h in admitted && h != tip ==> h in ix && Beats(ix[tip].work, tip, ix[h].work, h)
  }

  /** The tip beats all of these. */
  ghost predicate Unbeaten(ix: Index, hs: set<Hash>, tip: Hash) {
    tip in ix && forall h :: h in hs && h in ix ==> Beats(ix[tip].work, tip, ix[h].work, h)
  }

  /** Of the blocks with as much work as the best, the best has the smaller byte where the hashes first differ. */
  lemma {:induction false} BestHasSmallerByte(ix: Index, admitted: set<Hash>, tip: Hash, h: Hash, i: nat)
    requires BestOf(ix, admitted, tip) && h in admitted && h in ix && ix[h].work == ix[tip].work
    requires i < |h| && i < |tip| && h[..i] == tip[..i] && h[i] != tip[i]
    ensures tip[i] < h[i]
  {
    if h[i] < tip[i] {
      LessAtIsLess(h, tip, i);
      BytesLessTrichotomy(h, tip);
    }
  }

  /** The best of the admitted blocks is the best of all stored ones exactly when it beats the others too. */
  lemma {:induction false} BestIfUnbeaten(ix: Index, admitted: set<Hash>, tip: Hash)
    requires BestOf(ix, admitted, tip)
    ensures BestOf(ix, ix.Keys, tip) <==> Unbeaten(ix, ix.Keys - admitted, tip)
  {
    hide Beats;
  }

  lemma {:induction false} BestOfStable(ix: Index, ix': Index, admitted: set<Hash>, tip: Hash)
    requires BestOf(ix, admitted, tip) && Extends(ix, ix')
    ensures BestOf(ix', admitted, tip)
  {
  }

  /** A block that does not beat the tip can be admitted beside it. */
  lemma {:induction false} AdmitLoser(ix: Index, admitted: set<Hash>, tip: Hash, h: Hash)
    requires BestOf(ix, admitted, tip) && h in ix && !Beats(ix[h].work, h, ix[tip].work, tip)
    ensures BestOf(ix, admitted + {h}, tip)
  {
    BytesLessTrichotomy(h, tip);
  }

  /** A block that beats the tip beats everything the tip beat. */
  lemma {:induction false} AdmitWinner(ix: Index, admitted: set<Hash>, tip: Hash, h: Hash)
    requires BestOf(ix, admitted, tip) && h in ix && Beats(ix[h].work, h, ix[tip].work, tip)
    ensures BestOf(ix, admitted + {h}, h)
  {
    forall k | k in admitted + {h} && k != h ensures k in ix && Beats(ix[h].work, h, ix[k].work, k) {
      BeatsTransitive(ix[h].work, h, ix[tip].work, tip, ix[k].work, k);
    }
  }

  // ------------------------------------------------------------------------- positive work

  /** Network parameters under which every accepted block carries work. */
  ghost predicate PositiveLimit(c: Crypto, p: ChainParams) {
    && WithinLimit(p, p.genesisBlock.header.bits) && WithinLimit(p, p.initialBits)
    && CompactToBig(p.minBits) < Pow256(32)
    && (forall h :: FromLE(c.blockId(h)) > 0)
  }

  /** The block carries work of its own accord, or because the network's limit makes every accepted one do. */
  ghost predicate WorkCounts(c: Crypto, p: ChainParams, b: Block) {
    PositiveLimit(c, p) || CalcWork(b.header.bits) > 0
  }

  lemma {:induction false} LimitGivesWork(c: Crypto, p: ChainParams, ix: Index, prev: Hash, h: Header)
    requires PositiveLimit(c, p) && TreeOk(c, p, ix) && prev in ix
    requires MayFollow(p, HeadersOf(Path(ix, prev)), h) && PowOk(c.blockId(h), h.bits)
    ensures CalcWork(h.bits) > 0
  {
    hide MayFollow, CalcNextBits, CompactToBig, CalcWork, FromLE, NodeOk;
    var path := HeadersOf(Path(ix, prev));
    assert RulesAt(p, ix, prev);
    assert (path + [h])[..|path|] == path;
    TargetsStayWithinLimit(p, path + [h]);
    FromLEInvertsLE(CompactToBig(h.bits), 32);
    WorkIsPositiveIff(h.bits);
  }

  // -------------------------------------------------------------------------- agreement

  /** The work of a block is the same in every tree that holds it: it depends on the headers below it only. */
  lemma {:induction false} WorkAgrees(c: Crypto, p: ChainParams, a: Index, b: Index, h: Hash)
    requires Ideal(c) && TreeOk(c, p, a) && TreeOk(c, p, b) && h in a && h in b
    ensures a[h].work == b[h].work && a[h].height == b[h].height
    decreases a[h].height
  {
    assert LinkedAt(a, h) && NodeOk(c, p, a, h) && LinkedAt(b, h) && NodeOk(c, p, b, h);
    HeightZeroIsGenesis(c, p, a, h);
    HeightZeroIsGenesis(c, p, b, h);
    if a[h].height > 0 { WorkAgrees(c, p, a, b, Prev(a[h])); }
  }

  /** Two nodes that admitted the same blocks have the same tip. */
  lemma {:induction false} SameBlocksSameTip(c: Crypto, p: ChainParams, a: Index, b: Index, admitted: set<Hash>, s: Hash, t: Hash)
    requires Ideal(c) && TreeOk(c, p, a) && TreeOk(c, p, b)
    requires BestOf(a, admitted, s) && BestOf(b, admitted, t)
    ensures s == t
  {
    if s != t {
      WorkAgrees(c, p, a, b, s);
      WorkAgrees(c, p, a, b, t);
      BytesLessTrichotomy(s, t);
    }
  }

  // ------------------------------------------------------------------ work against length

  lemma {:induction false} PathWorkSplits(xs: seq<Block>, ys: seq<Block>)
    ensures PathWork(xs + ys) == PathWork(xs) + PathWork(ys)
  {
    hide CalcWork;
    if ys == [] {
      assert xs + ys == xs;
    } else {
      assert (xs + ys)[..|xs + ys| - 1] == xs + ys[..|ys| - 1];
      PathWorkSplits(xs, ys[..|ys| - 1]);
    }
  }

  /** The work of a branch whose blocks carry at least, or at most, so much each. */
  lemma {:induction false} BranchWork(xs: seq<Block>, w: nat)
    ensures (forall i :: 0 <= i < |xs| ==> CalcWork(xs[i].header.bits) >= w) ==> PathWork(xs) >= |xs| * w
    ensures (forall i :: 0 <= i < |xs| ==> CalcWork(xs[i].header.bits) <= w) ==> PathWork(xs) <= |xs| * w
  {
    hide CalcWork;
    if xs != [] {
      BranchWork(xs[..|xs| - 1], w);
      MulCommutes(w, |xs| - 1);
      assert w * |xs| == w * (|xs| - 1) + w;
      MulCommutes(w, |xs|);
    }
  }

  /** Every target of the branch is positive and at most `hard`. */
  ghost predicate AllHard(xs: seq<Block>, hard: nat) {
    forall i :: 0 <= i < |xs| ==> 0 < CompactToBig(xs[i].header.bits) <= hard
  }

  ghost predicate AllEasy(xs: seq<Block>, easy: nat) {
    forall i :: 0 <= i < |xs| ==> CompactToBig(xs[i].header.bits) >= easy
  }

  lemma {:induction false} HardWork(xs: seq<Block>, hard: nat)
    requires AllHard(xs, hard)
    ensures PathWork(xs) * (hard + 1) >= |xs| * (Pow256(32) - hard)
  {
    hide CompactToBig, Pow256, CalcWork;
    var n, d := Pow256(32), hard + 1;
    var w := n / d;
    assert n == d * w + n % d;
    forall i | 0 <= i < |xs| ensures CalcWork(xs[i].header.bits) >= w {
      WorkUnder(xs[i].header.bits, hard);
    }
    BranchWork(xs, w);
    MulMono(d, |xs| * w, PathWork(xs));
    MulAssoc(|xs|, w, d);
    MulMono(|xs|, n - hard, w * d) by { MulCommutes(d, w); }
    MulCommutes(PathWork(xs), d);
    MulCommutes(|xs| * w, d);
  }

  lemma {:induction false} WorkUnder(bits: u32, hard: nat)
    requires 0 < CompactToBig(bits) <= hard
    ensures CalcWork(bits) >= Pow256(32) / (hard + 1)
  {
    hide CompactToBig, Pow256;
    DivFallsWithDivisor(Pow256(32), CompactToBig(bits) + 1, hard + 1);
  }

  lemma {:induction false} EasyWork(ys: seq<Block>, easy: nat)
    requires AllEasy(ys, easy) && easy > 0
    ensures PathWork(ys) * (easy + 1) <= |ys| * Pow256(32)
  {
    hide CompactToBig, Pow256, CalcWork;
    var n, d := Pow256(32), easy + 1;
    var w := n / d;
    assert n == d * w + n % d;
    forall i | 0 <= i < |ys| ensures CalcWork(ys[i].header.bits) <= w {
      WorkOver(ys[i].header.bits, easy);
    }
    BranchWork(ys, w);
    MulMono(d, PathWork(ys), |ys| * w);
    MulAssoc(|ys|, w, d);
    MulMono(|ys|, w * d, n) by { MulCommutes(d, w); }
    MulCommutes(PathWork(ys), d);
    MulCommutes(|ys| * w, d);
  }

  lemma {:induction false} WorkOver(bits: u32, easy: nat)
    requires 0 < easy <= CompactToBig(bits)
    ensures CalcWork(bits) <= Pow256(32) / (easy + 1)
  {
    hide CompactToBig, Pow256;
    DivFallsWithDivisor(Pow256(32), easy + 1, CompactToBig(bits) + 1);
  }

  /**
   * What counts is work and not length: from a common ancestor, a branch of targets up to `hard` beats one of targets
   * from `easy` on whenever its length outweighs the ratio of the targets.
   */
  lemma {:induction false} HarderBranchBeats(c: Crypto, p: ChainParams, ix: Index, h: Hash, k: Hash, base: seq<Block>,
                                             xs: seq<Block>, ys: seq<Block>, hard: nat, easy: nat)
    requires TreeOk(c, p, ix) && h in ix && k in ix && Linked(ix) && Path(ix, h) == base + xs && Path(ix, k) == base + ys
    requires AllHard(xs, hard) && AllEasy(ys, easy) && easy > 0
    requires |xs| * (Pow256(32) - hard) * (easy + 1) > |ys| * Pow256(32) * (hard + 1)
    ensures Beats(ix[h].work, h, ix[k].work, k)
  {
    hide CompactToBig, Pow256, TreeOk, Linked, Path, PathWork, AllHard, AllEasy;
    WorkIsPathSum(c, p, ix, h);
    WorkIsPathSum(c, p, ix, k);
    PathWorkSplits(base, xs);
    PathWorkSplits(base, ys);
    HardWork(xs, hard);
    EasyWork(ys, easy);
    CrossMultiply(PathWork(xs), PathWork(ys), hard + 1, easy + 1, |xs| * (Pow256(32) - hard), |ys| * Pow256(32));
  }

  lemma {:induction false} CrossMultiply(x: int, y: int, d: int, e: int, m: int, n: int)
    requires d > 0 && e > 0 && x * d >= m && y * e <= n && m * e > n * d
    ensures x > y
  {
    MulMono(e, m, x * d);
    MulMono(d, y * e, n);
    MulAssoc(x, d, e);
    MulAssoc(y, e, d);
    if x <= y { MulMono(d * e, x, y); }
  }

  /** So two blocks at a quarter of a target beat three at that target. */
  lemma {:induction false} TwoBeatThree(c: Crypto, p: ChainParams, ix: Index, h: Hash, k: Hash, base: seq<Block>,
                                        xs: seq<Block>, ys: seq<Block>, hard: nat, easy: nat)
    requires TreeOk(c, p, ix) && h in ix && k in ix && Linked(ix) && Path(ix, h) == base + xs && Path(ix, k) == base + ys
    requires |xs| == 2 && |ys| == 3 && AllHard(xs, hard) && AllEasy(ys, easy) && 4 * (hard + 1) <= easy + 1 && 8 * hard < 5 * Pow256(32)
    ensures Beats(ix[h].work, h, ix[k].work, k)
  {
    hide CompactToBig, Pow256, TreeOk, Linked, Path, PathWork, AllHard, AllEasy, Beats;
    var n, d := Pow256(32), hard + 1;
    MulMono(2 * (n - hard), 4 * d, easy + 1);
    MulAssoc(2 * (n - hard), 4, d);
    MulMono(d, 3 * n + 1, 8 * (n - hard));
    MulCommutes(d, 3 * n);
    MulCommutes(d, 8 * (n - hard));
    HarderBranchBeats(c, p, ix, h, k, base, xs, ys, hard, easy);
  }
}
