/** Block locators and what a peer makes of them (internal/chain/chain.go, internal/p2p/manager.go). */
module Locator {
  import opened Types
  import opened Arith
  import opened Params
  import opened BlockRules
  import opened BlockTree
  import opened ChainState
  import opened ForkChoice

  const MAX_LOCATOR_HASHES: nat := 500

  /** How far below the tip the entry at a position lies. */
  function Offset(i: nat): nat {
    if i <= 10 then i else 9 + Pow2(i - 10)
  }

  function StepAfter(i: nat): nat {
    if i <= 10 then 1 else Pow2(i - 10)
  }

  function HeightAt(tip: nat, i: nat): nat {
    if tip <= Offset(i) then 0 else tip - Offset(i)
  }

  /** Consecutive down to ten below the tip, then at doubling distances, ending at genesis. */
  ghost predicate IsLocator(locator: seq<Hash>, at: map<nat, Hash>, tip: nat) {
    && locator != []
    && (forall i :: 0 <= i < |locator| ==> HeightAt(tip, i) in at && locator[i] == at[HeightAt(tip, i)])
    && (forall i :: 0 <= i < |locator| - 1 ==> HeightAt(tip, i) > 0)
    && HeightAt(tip, |locator| - 1) == 0
  }

  lemma {:induction false} OffsetStep(i: nat)
    ensures Offset(i + 1) == Offset(i) + StepAfter(i) && Offset(i) < Offset(i + 1)
  {
    if i >= 10 { assert Pow2(i + 1 - 10) == 2 * Pow2(i - 10); }
  }

  lemma {:induction false} OffsetMono(i: nat, j: nat)
    requires i <= j
    ensures Offset(i) <= Offset(j)
  {
    if i < j {
      OffsetMono(i, j - 1);
      OffsetStep(j - 1);
    }
  }

  lemma {:induction false} Pow2Mono(a: nat, b: nat)
    requires a <= b
    ensures Pow2(a) <= Pow2(b)
  {
    if a < b { Pow2Mono(a, b - 1); }
  }

  /** The uint32 step has not wrapped while there is still height to descend. */
  lemma {:induction false} StepFits(tip: u32, i: nat)
    requires tip > Offset(i)
    ensures i < 42 && StepAfter(i) < TWO32
  {
    Pow2Widths();
    if i >= 42 { Pow2Mono(32, i - 10); }
    if i > 10 { Pow2Mono(i - 10, 32); }
  }

  method BlockLocator(at: map<nat, Hash>, tip: u32) returns (locator: seq<Hash>)
    requires forall i: nat :: i in at <==> i <= tip
    ensures IsLocator(locator, at, tip)
  {
    locator := [];
    var step: u32 := 1;
    var height: u32 := tip;
    while true
      invariant height == HeightAt(tip, |locator|)
      invariant height > 0 ==> step == StepAfter(|locator|)
      invariant forall i :: 0 <= i < |locator| ==> HeightAt(tip, i) in at && locator[i] == at[HeightAt(tip, i)]
      invariant forall i :: 0 <= i < |locator| ==> HeightAt(tip, i) > 0
      decreases height
    {
      var n := |locator|;
      locator := locator + [at[height]];
      if height == 0 { break; }
      OffsetStep(n);
      StepFits(tip, n);
      height := if height < step then 0 else height - step;
      if |locator| > 10 { step := (step * 2) % TWO32; }
      if height > 0 { StepFits(tip, n + 1); }
    }
  }

  /** Strictly descending from the tip to genesis, and far below what a peer will decode. */
  lemma {:induction false} LocatorShape(locator: seq<Hash>, at: map<nat, Hash>, tip: u32)
    requires IsLocator(locator, at, tip)
    ensures tip in at && locator[0] == at[tip] && 0 in at && locator[|locator| - 1] == at[0]
    ensures forall i, j :: 0 <= i < j < |locator| ==> HeightAt(tip, i) > HeightAt(tip, j)
    ensures |locator| <= 43 < MAX_LOCATOR_HASHES
  {
    forall i, j | 0 <= i < j < |locator| ensures HeightAt(tip, i) > HeightAt(tip, j) {
      OffsetStep(i);
      OffsetMono(i + 1, j);
      assert HeightAt(tip, i) > 0;
    }
    assert HeightAt(tip, 0) == tip;
    if |locator| > 1 {
      assert HeightAt(tip, |locator| - 2) > 0;
      StepFits(tip, |locator| - 2);
    }
  }

  // ---------------------------------------------------------------------------- the peer

  /** `k` is the first locator hash on the peer's main chain and `start` its height; zero when there is none. */
  ghost predicate FirstShared(locator: seq<Hash>, heightOf: map<Hash, nat>, at: map<nat, Hash>, k: nat, start: nat) {
    && k <= |locator| && (forall i :: 0 <= i < k ==> !OnMain(heightOf, at, locator[i]))
    && if k == |locator| then start == 0 else OnMain(heightOf, at, locator[k]) && start == heightOf[locator[k]]
  }

  /** The peer scans the locator for the first hash on its own main chain. */
  method ResolveStart(locator: seq<Hash>, heightOf: map<Hash, nat>, at: map<nat, Hash>) returns (start: nat)
    ensures exists k :: FirstShared(locator, heightOf, at, k, start)
  {
    for i := 0 to |locator|
      invariant forall j :: 0 <= j < i ==> !OnMain(heightOf, at, locator[j])
    {
      if OnMain(heightOf, at, locator[i]) {
        assert FirstShared(locator, heightOf, at, i, heightOf[locator[i]]);
        return heightOf[locator[i]];
      }
    }
    assert FirstShared(locator, heightOf, at, |locator|, 0);
    return 0;
  }

  /** The two main chains are the same up to `fork` and have nothing in common above it. */
  ghost predicate ForkAt(ours: map<nat, Hash>, tip: nat, heightOf: map<Hash, nat>, theirs: map<nat, Hash>, fork: nat) {
    && fork <= tip
    && (forall i: nat :: i <= tip ==> i in ours)
    && (forall i: nat :: i <= fork ==> OnMain(heightOf, theirs, ours[i]) && heightOf[ours[i]] == i)
    && (forall i: nat :: fork < i <= tip ==> !OnMain(heightOf, theirs, ours[i]))
  }

  /** The start is a common block, no further below the fork than the fork is below our tip, and exact within ten. */
  method ResolvePeerStart(locator: seq<Hash>, ghost ours: map<nat, Hash>, ghost tip: u32,
                          heightOf: map<Hash, nat>, theirs: map<nat, Hash>, ghost fork: nat) returns (start: nat)
    requires IsLocator(locator, ours, tip) && ForkAt(ours, tip, heightOf, theirs, fork)
    ensures start <= fork && ours[start] == theirs[start]
    ensures fork - start <= tip - fork && (tip - fork <= 10 ==> start == fork)
  {
    start := ResolveStart(locator, heightOf, theirs);
    ghost var k: nat :| FirstShared(locator, heightOf, theirs, k, start);
    assert OnMain(heightOf, theirs, locator[|locator| - 1]);
    assert start == HeightAt(tip, k) by { assert OnMain(heightOf, theirs, ours[HeightAt(tip, k)]); }
    if k > 0 {
      assert HeightAt(tip, k - 1) > fork;
      OffsetStep(k - 1);
      if k > 10 { assert Offset(k - 1) == 9 + StepAfter(k - 1); }
    }
  }

  // -------------------------------------------------------------- any two nodes have a fork

  /** A block the two main chains share has one height, and everything below it is shared as well. */
  lemma {:induction false} SharedBelow(c: Crypto, p: ChainParams, a: Index, v: View, b: Index, w: View, i: nat, f: nat)
    requires EnvOk(c, p) && TreeOk(c, p, a) && TreeOk(c, p, b) && ViewOk(c, p, a, v) && ViewOk(c, p, b, w)
    requires f <= i <= v.height && i in v.at && OnMain(w.heightOf, w.at, v.at[i])
    ensures i in w.at && w.heightOf[v.at[i]] == i && v.at[i] == w.at[i]
    ensures f in v.at && f in w.at && v.at[f] == w.at[f]
    decreases i - f
  {
    hide EnvOk, TreeOk, Good, CoinsAt;
    var h := v.at[i];
    MainAt(a, v.at, v.height, v.tip, i);
    EnvIsIdeal(c, p);
    WorkAgrees(c, p, a, b, h);
    if f < i {
      MainAt(b, w.at, w.height, w.tip, i);
      MainAt(a, v.at, v.height, v.tip, i - 1);
      MainAt(b, w.at, w.height, w.tip, i - 1);
      SameRecord(c, p, a, b, h);
      SharedBelow(c, p, a, v, b, w, i - 1, f);
    }
  }

  lemma {:induction false} EnvIsIdeal(c: Crypto, p: ChainParams)
    requires EnvOk(c, p)
    ensures Ideal(c)
  {
  }

  lemma {:induction false} SameRecord(c: Crypto, p: ChainParams, a: Index, b: Index, h: Hash)
    requires EnvOk(c, p) && TreeOk(c, p, a) && TreeOk(c, p, b) && h in a && h in b
    ensures Prev(a[h]) == Prev(b[h])
  {
    assert LinkedAt(a, h) && NodeOk(c, p, a, h) && LinkedAt(b, h) && NodeOk(c, p, b, h);
  }

  /** Whatever the two nodes have seen, their main chains fork at exactly one height. */
  lemma {:induction false} ForkExists(c: Crypto, p: ChainParams, a: Index, v: View, b: Index, w: View) returns (fork: nat)
    requires EnvOk(c, p) && TreeOk(c, p, a) && TreeOk(c, p, b) && ViewOk(c, p, a, v) && ViewOk(c, p, b, w)
    ensures ForkAt(v.at, v.height, w.heightOf, w.at, fork)
  {
    hide EnvOk, TreeOk, Good, CoinsAt;
    SharedGenesis(c, p, a, v, b, w);
    fork := v.height;
    while !OnMain(w.heightOf, w.at, v.at[fork])
      invariant fork <= v.height && fork in v.at
      invariant forall i: nat :: fork < i <= v.height ==> i in v.at && !OnMain(w.heightOf, w.at, v.at[i])
      decreases fork
    {
      MainAt(a, v.at, v.height, v.tip, fork);
      fork := fork - 1;
    }
    forall i: nat | i <= fork ensures i in v.at && OnMain(w.heightOf, w.at, v.at[i]) && w.heightOf[v.at[i]] == i {
      SharedBelow(c, p, a, v, b, w, fork, i);
      MainAt(b, w.at, w.height, w.tip, i);
    }
  }

  lemma {:induction false} SharedGenesis(c: Crypto, p: ChainParams, a: Index, v: View, b: Index, w: View)
    requires TreeOk(c, p, a) && TreeOk(c, p, b) && ViewOk(c, p, a, v) && ViewOk(c, p, b, w)
    ensures 0 in v.at && OnMain(w.heightOf, w.at, v.at[0])
  {
    hide TreeOk, Good, CoinsAt;
    HeightZeroIsGenesis(c, p, a, v.at[0]);
    HeightZeroIsGenesis(c, p, b, w.at[0]);
  }
}
