/** A run in which a switch fails, and what a restart and the next block make of the disk it leaves. */
module Spoiled {
  import opened Types
  import opened Params
  import opened Utxo
  import opened TxValidation
  import opened Target
  import opened Merkle
  import opened BlockRules
  import opened History
  import opened Headers
  import opened BlockTree
  import opened ChainState
  import opened ForkChoice
  import opened Decision
  import opened OrphanQueue
  import opened Sweep
  import opened Witness
  import opened Example
  import opened Cases
  import C = Chain

  // A rival of the second block that takes too much, and a block on top of it.
  function Grab(k: Start): Transaction {
    Transaction(k, [TxInput(OutPoint(ZERO_HASH, 0xFFFF_FFFF), [1, 2], 0xFFFF_FFFF)], [TxOutput(2, [])], 0)
  }

  function Greedy(c: Crypto, k: Start): Block {
    Mined(c, Id(c, First(c, k)), [Grab(k)], k + 3)
  }

  function Top(c: Crypto, k: Start): Block {
    Plain(c, k, Id(c, Greedy(c, k)), 3, k + 4)
  }

  function G(c: Crypto, k: Start): Hash { Id(c, Genesis(c, k)) }

  function One(c: Crypto, k: Start): Hash { Id(c, First(c, k)) }

  function Two(c: Crypto, k: Start): Hash { Id(c, Second(c, k)) }

  // The stored tree, block by block.
  ghost function Tree1(c: Crypto, k: Start): Index { Child(c, Origin(c, k), First(c, k)) }

  ghost function Tree2(c: Crypto, k: Start): Index { Child(c, Tree1(c, k), Second(c, k)) }

  ghost function Tree3(c: Crypto, k: Start): Index { Child(c, Tree2(c, k), Greedy(c, k)) }

  ghost function Tree4(c: Crypto, k: Start): Index { Child(c, Tree3(c, k), Top(c, k)) }

  /** The validated chain of the run, in any tree that holds it. */
  ghost predicate Line(c: Crypto, k: Start, ix: Index) {
    && TreeOk(c, Net(c, k), ix) && Linked(ix) && Has(c, k, ix, First(c, k), 1) && Has(c, k, ix, Second(c, k), 2)
    && Path(ix, One(c, k)) == [Genesis(c, k), First(c, k)] && Path(ix, Two(c, k)) == [Genesis(c, k), First(c, k), Second(c, k)]
  }

  lemma {:induction false} LineStays(c: Crypto, k: Start, ix: Index, ix': Index)
    requires Line(c, k, ix) && TreeOk(c, Net(c, k), ix') && Linked(ix') && Extends(ix, ix')
    ensures Line(c, k, ix')
  {
    hide TreeOk, Linked, Good, Extends, Net, CalcWork, Genesis, First, Second;
    HasStays(c, k, ix, ix', First(c, k), 1);
    HasStays(c, k, ix, ix', Second(c, k), 2);
    PathStable(ix, ix', One(c, k));
    PathStable(ix, ix', Two(c, k));
  }

  lemma {:induction false} FirstFits(c: Crypto, k: Start)
    requires Friendly(c)
    ensures MayGrow(c, k, Origin(c, k), First(c, k), 1) && First(c, k).header.timestamp == k + 1 && First(c, k).header.prevBlock == G(c, k)
  {
    hide TreeOk, Friendly, Net, Genesis, MerkleRoot, Coinbase, Good, Path, Linked, CalcWork;
    OriginIsTree(c, k);
    PlainFits(c, k, G(c, k), 1, k + 1);
  }

  lemma {:induction false} SecondFits(c: Crypto, k: Start)
    requires Friendly(c)
    ensures Fits(c, Second(c, k), 2) && Second(c, k).header.timestamp == k + 2 && Second(c, k).header.prevBlock == One(c, k)
  {
    hide Friendly, Genesis, MerkleRoot, Coinbase, Spend, First;
    CoinbaseIs(k, [1, 2]);
    NotCoinbase(c, k);
  }

  lemma {:induction false} GreedyFits(c: Crypto, k: Start)
    ensures Fits(c, Greedy(c, k), 2) && Greedy(c, k).header.timestamp == k + 3 && Greedy(c, k).header.prevBlock == One(c, k)
    ensures Greedy(c, k).transactions == [Grab(k)] && IsCoinbase(Grab(k)) && Grab(k).outputs == [TxOutput(2, [])]
  {
    hide MerkleRoot, First;
  }

  /** The first two blocks, one after the other. */
  lemma {:induction false} LineHolds(c: Crypto, k: Start)
    requires Friendly(c)
    ensures MayGrow(c, k, Tree1(c, k), Second(c, k), 2) && Line(c, k, Tree2(c, k))
    ensures Path(Tree1(c, k), One(c, k)) == [Genesis(c, k), First(c, k)] && Has(c, k, Tree1(c, k), First(c, k), 1)
    ensures Tree2(c, k).Keys == {G(c, k), One(c, k), Two(c, k)} && Tree1(c, k).Keys == {G(c, k), One(c, k)} && Linked(Tree1(c, k))
  {
    hide TreeOk, Friendly, Net, Genesis, First, Second, Linked, Path, ChainOk, Replay, Fits, Extends, CalcWork, Child, StructureOk, Origin;
    OriginIsTree(c, k);
    FirstFits(c, k);
    SecondFits(c, k);
    ChildGrows(c, k, Origin(c, k), First(c, k), 1);
    FirstIsAccepted(c, k);
    OriginHasOne(c, k);
    assert [Genesis(c, k)] + [First(c, k)] == [Genesis(c, k), First(c, k)];
    assert Stacked(1) == Stacked(0) + CalcWork(BITS) && Stacked(2) == Stacked(1) + CalcWork(BITS);
    BitsAreRight(c, First(c, k), 1);
    BitsAreRight(c, Second(c, k), 2);
    ChildGrows(c, k, Tree1(c, k), Second(c, k), 2);
    SecondIsAccepted(c, k);
    HasStays(c, k, Tree1(c, k), Tree2(c, k), First(c, k), 1);
    PathStable(Tree1(c, k), Tree2(c, k), One(c, k));
    assert [Genesis(c, k), First(c, k)] + [Second(c, k)] == [Genesis(c, k), First(c, k), Second(c, k)];
  }

  lemma {:induction false} OriginHasOne(c: Crypto, k: Start)
    ensures Origin(c, k).Keys == {G(c, k)}
  {
    hide Genesis, Net;
  }

  // ----------------------------------------------------------------------------- what is due

  lemma {:induction false} ExtendsDue(c: Crypto, k: Start, ix: Index, undo: map<Hash, Undo>, v: View, b: Block, h: u8, now: u32)
    requires Friendly(c) && MayGrow(c, k, ix, b, h) && b.header.timestamp <= now && ViewOk(c, Net(c, k), ix, v)
    requires b.header.prevBlock == v.tip && b.transactions != [] && BlockInputsOk(c.verify, Net(c, k), v.coins, h, b)
    ensures Due(c, Net(c, k), ix, undo, v, Id(c, b), b, now) == Extended
  {
    hide ViewOk, NewBlockOk, BlockInputsOk, Friendly, Net, TreeOk, Fits, Linked, Sane, CalcWork, Grown;
    GetsIn(c, k, ix, b, h, now);
  }

  lemma {:induction false} FirstIsDue(c: Crypto, k: Start, undo: map<Hash, Undo>, v: View)
    requires Friendly(c) && ViewOk(c, Net(c, k), Origin(c, k), v) && v.tip == G(c, k)
    ensures Due(c, Net(c, k), Origin(c, k), undo, v, One(c, k), First(c, k), k + 4) == Extended
  {
    hide ViewOk, Due, BlockInputsOk, Friendly, Net, TreeOk, Genesis, MayGrow, Coinbase, MerkleRoot, Origin;
    FirstFits(c, k);
    CoinbaseIs(k, [1, 1]);
    MintingPasses(c, k, v.coins, 1, First(c, k));
    ExtendsDue(c, k, Origin(c, k), undo, v, First(c, k), 1, k + 4);
  }

  lemma {:induction false} SecondIsDue(c: Crypto, k: Start, undo: map<Hash, Undo>, v: View)
    requires Friendly(c) && ViewOk(c, Net(c, k), Tree1(c, k), v) && v.tip == One(c, k)
    ensures Due(c, Net(c, k), Tree1(c, k), undo, v, Two(c, k), Second(c, k), k + 4) == Extended
  {
    hide Due, BlockInputsOk, Friendly, Net, TreeOk, Genesis, First, MayGrow, Replay, Path, ChainOk, MainOk, HeightsOk, Tree1, Tree2, Linked,
         SpentSet, StructureOk, CalcWork, MerkleRoot, Coinbase, Spend;
    LineHolds(c, k);
    SecondFits(c, k);
    FirstIsAccepted(c, k);
    ViewFacts(c, Net(c, k), Tree1(c, k), v);
    SpendingPasses(c, k, v.coins);
    ExtendsDue(c, k, Tree1(c, k), undo, v, Second(c, k), 2, k + 4);
  }

  /** Where a node on the second block stands. */
  lemma {:induction false} OnSecond(c: Crypto, k: Start, ix: Index, v: View)
    requires Friendly(c) && Line(c, k, ix) && ViewOk(c, Net(c, k), ix, v) && v.tip == Two(c, k)
    ensures v.height == 2 && v.work == Stacked(2) && v.coins == Replay(c.txId, [Genesis(c, k), First(c, k), Second(c, k)])
    ensures 1 in v.at && 2 in v.at && v.at[1] == One(c, k) && v.at[2] == Two(c, k) && OnMain(v.heightOf, v.at, One(c, k))
    ensures forall x :: x in ix && ix[x].height == 2 && x != Two(c, k) ==> !OnMain(v.heightOf, v.at, x)
    ensures forall undo :: MainHasUndo(v.at, undo) ==> !UndoMissing(v.at, undo, 1)
  {
    hide TreeOk, Good, Friendly, Genesis, First, CalcWork, Linked, Path, Replay, MainOk, HeightsOk, OnMain, OffMain, Net, Stacked,
         UndoMissing;
    ViewFacts(c, Net(c, k), ix, v);
    SecondFits(c, k);
    MainAt(ix, v.at, v.height, v.tip, 2);
    MainAt(ix, v.at, v.height, v.tip, 1);
    OnMainIff(ix, v, One(c, k));
    NotOff(v.at, 1);
    forall x | x in ix && ix[x].height == 2 && x != Two(c, k) ensures !OnMain(v.heightOf, v.at, x) {
      OffMainAt(ix, v, x);
      OnMainIff(ix, v, x);
    }
    forall undo | MainHasUndo(v.at, undo) ensures !UndoMissing(v.at, undo, 1) { NothingMissing(v.at, undo, 1); }
  }

  // ------------------------------------------------------------------------ the bad branch

  lemma {:induction false} TakesTooMuch(c: Crypto, k: Start, s: Coins)
    ensures Greedy(c, k).transactions != [] && !BlockInputsOk(c.verify, Net(c, k), s, 2, Greedy(c, k))
  {
    hide MerkleRoot, Genesis, First, TxsOk, Grab;
    GreedyFits(c, k);
    var txs := Greedy(c, k).transactions;
    OneUnit(txs[0].outputs);
    assert Fees(s, txs) == Fees(s, txs[..0]) && txs[..0] == [];
  }

  /** The rival gets in, and is not validated. */
  lemma {:induction false} GreedyGrows(c: Crypto, k: Start)
    requires Friendly(c)
    ensures MayGrow(c, k, Tree2(c, k), Greedy(c, k), 2) && Grown(c, k, Tree2(c, k), Greedy(c, k), Tree3(c, k)) && Line(c, k, Tree3(c, k))
    ensures Tree3(c, k)[Id(c, Greedy(c, k))] == Rec(Greedy(c, k), 2, Stacked(2)) && Id(c, Greedy(c, k)) !in Tree2(c, k)
    ensures !Good(c, Net(c, k), Tree3(c, k), Id(c, Greedy(c, k)))
  {
    hide TreeOk, Friendly, Net, Genesis, First, Second, Linked, Path, Fits, CalcWork, Child, Tree1, Tree2, Extends, Good,
         BlockInputsOk, CoinsAt,
         Greedy;
    LineHolds(c, k);
    GreedyFits(c, k);
    SecondFits(c, k);
    FirstFits(c, k);
    OriginIsTree(c, k);
    ChildGrows(c, k, Tree2(c, k), Greedy(c, k), 2);
    LineStays(c, k, Tree2(c, k), Tree3(c, k));
    BitsAreRight(c, Greedy(c, k), 2);
    assert Stacked(2) == Stacked(1) + CalcWork(BITS);
    ValidatedIff(c, k, Tree2(c, k), Greedy(c, k), 2);
    TakesTooMuch(c, k, CoinsAt(c, Tree2(c, k), One(c, k)));
    LaterThan(c, Genesis(c, k), Greedy(c, k));
    LaterThan(c, First(c, k), Greedy(c, k));
    LaterThan(c, Second(c, k), Greedy(c, k));
  }

  /** So does the block on it. */
  lemma {:induction false} TopGrows(c: Crypto, k: Start)
    requires Friendly(c)
    ensures MayGrow(c, k, Tree3(c, k), Top(c, k), 3) && Grown(c, k, Tree3(c, k), Top(c, k), Tree4(c, k)) && Line(c, k, Tree4(c, k))
    ensures Top(c, k).header.prevBlock == Id(c, Greedy(c, k)) && Top(c, k).header.timestamp == k + 4 && Id(c, Top(c, k)) !in Tree3(c, k)
    ensures Tree4(c, k)[Id(c, Top(c, k))].height == 3 && Id(c, Greedy(c, k)) in Tree4(c, k)
    ensures Tree4(c, k)[Id(c, Greedy(c, k))] == Rec(Greedy(c, k), 2, Stacked(2))
    ensures !Good(c, Net(c, k), Tree4(c, k), Id(c, Greedy(c, k))) && !Good(c, Net(c, k), Tree4(c, k), Id(c, Top(c, k)))
  {
    hide TreeOk, Friendly, Net, Genesis, First, Second, Linked, Path, Fits, CalcWork, Child, Tree1, Tree2, Tree3, ChainOk,
         BlockInputsOk, CoinsAt,
         Greedy, Plain, NewBlockOk;
    GreedyGrows(c, k);
    LineHolds(c, k);
    GreedyFits(c, k);
    SecondFits(c, k);
    FirstFits(c, k);
    OriginIsTree(c, k);
    PlainGetsIn(c, k, Tree3(c, k), Id(c, Greedy(c, k)), 3, k + 4, k + 4);
    LineStays(c, k, Tree3(c, k), Tree4(c, k));
    PathStable(Tree3(c, k), Tree4(c, k), Id(c, Greedy(c, k)));
    if Good(c, Net(c, k), Tree4(c, k), Id(c, Top(c, k))) { GoodWasValidated(c, Net(c, k), Tree4(c, k), Id(c, Top(c, k))); }
    LaterThan(c, Genesis(c, k), Top(c, k));
    LaterThan(c, First(c, k), Top(c, k));
    LaterThan(c, Second(c, k), Top(c, k));
    LaterThan(c, Greedy(c, k), Top(c, k));
  }

  /** The rival is as heavy as the second block: it is tried, and fails, or kept beside it. */
  lemma {:induction false} GreedyIsDue(c: Crypto, k: Start, undo: map<Hash, Undo>, v: View)
    requires Friendly(c) && ViewOk(c, Net(c, k), Tree2(c, k), v) && v.tip == Two(c, k)
    ensures var g := Id(c, Greedy(c, k));
            Due(c, Net(c, k), Tree2(c, k), undo, v, g, Greedy(c, k), k + 4) == if BytesLess(g, Two(c, k)) then ReorgFailed else SideChain
  {
    hide TreeOk, Friendly, Genesis, First, Linked, Path, CalcWork, Tree1, Tree2, Good, Greedy, ViewOk, BytesLess, NewBlockOk, OnMain,
         UndoMissing, Stacked, Extends, Fits, Sane;
    LineHolds(c, k);
    GreedyGrows(c, k);
    GreedyFits(c, k);
    OnSecond(c, k, Tree2(c, k), v);
    GetsIn(c, k, Tree2(c, k), Greedy(c, k), 2, k + 4);
    SameFork(Tree2(c, k), v, One(c, k));
    HasHeight(c, k, Tree2(c, k));
    BitsAreRight(c, Greedy(c, k), 2);
  }

  lemma {:induction false} HasHeight(c: Crypto, k: Start, ix: Index)
    requires Friendly(c) && Line(c, k, ix)
    ensures ix[One(c, k)].height == 1 && One(c, k) in ix && ix[One(c, k)].work == Stacked(1) && Stacked(2) == Stacked(1) + CalcWork(BITS)
    ensures First(c, k).header.timestamp != Second(c, k).header.timestamp && One(c, k) != Two(c, k)
  {
    hide TreeOk, Friendly, Linked, Path, Good, CalcWork, First, Second, Net;
    FirstFits(c, k);
    SecondFits(c, k);
    DifferentTimes(c, First(c, k), Second(c, k));
  }

  lemma {:induction false} SameFork(ix: Index, v: View, h: Hash)
    requires Linked(ix) && h in ix && OnMain(v.heightOf, v.at, h)
    ensures ForkHeight(ix, v, h) == ix[h].height
  {
    hide Linked, OnMain;
  }

  /** The block on top beats the second block, and the switch to it fails. */
  lemma {:induction false} TopIsDue(c: Crypto, k: Start, undo: map<Hash, Undo>, v: View)
    requires Friendly(c) && ViewOk(c, Net(c, k), Tree3(c, k), v) && v.tip == Two(c, k)
    ensures Due(c, Net(c, k), Tree3(c, k), undo, v, Id(c, Top(c, k)), Top(c, k), k + 4) == ReorgFailed
    ensures ForkHeight(Tree3(c, k), v, Id(c, Greedy(c, k))) == 1
  {
    hide TreeOk, Friendly, Genesis, First, Linked, Path, CalcWork, Tree1, Tree2, Tree3, Good, Greedy, ViewOk, Due, OnMain,
         UndoMissing, Stacked, Extends, Fits, MayGrow, Top, Second, ForkHeight;
    GreedyGrows(c, k);
    GreedyFits(c, k);
    TopGrows(c, k);
    OnSecond(c, k, Tree3(c, k), v);
    HasHeight(c, k, Tree3(c, k));
    TreeHasGreedy(c, k);
    ForkJustBelow(Tree3(c, k), v, Id(c, Greedy(c, k)));
    BesideDue(c, k, Tree3(c, k), undo, v, Top(c, k), 3, k + 4);
  }

  lemma {:induction false} TreeHasGreedy(c: Crypto, k: Start)
    requires Friendly(c)
    ensures Id(c, Greedy(c, k)) in Tree3(c, k) && Id(c, Greedy(c, k)) != Two(c, k) && Id(c, Top(c, k)) in Tree4(c, k)
  {
    hide Friendly, Greedy, Second, Tree2, Top, Genesis, First;
    GreedyFits(c, k);
    SecondFits(c, k);
    DifferentTimes(c, Greedy(c, k), Second(c, k));
  }

  // ------------------------------------------------------------------------ where it stops

  lemma {:induction false} StopsBelow(c: Crypto, k: Start, ix: Index, undo: map<Hash, Undo>, v: View, h: Hash)
    requires Linked(ix) && h in ix && ForkBelow(ix, v, h) == 1 && !UndoMissing(v.at, undo, 1)
    ensures StopAt(c, Net(c, k), ix, undo, v, h) == LastGood(c, Net(c, k), ix, h)
  {
    hide Linked, ForkBelow, UndoMissing, LastGood, StopsDown, Net;
  }

  lemma {:induction false} LastGoodJustBelow(c: Crypto, p: ChainParams, ix: Index, h: Hash)
    requires Linked(ix) && h in ix && ix[h].height > 0 && Prev(ix[h]) in ix && !Good(c, p, ix, h) && Good(c, p, ix, Prev(ix[h]))
    ensures LastGood(c, p, ix, h) == Prev(ix[h])
  {
    hide Linked, Good;
    assert LastGood(c, p, ix, Prev(ix[h])) == Prev(ix[h]);
  }

  lemma {:induction false} GreedyStops(c: Crypto, k: Start, undo: map<Hash, Undo>, v: View)
    requires Friendly(c) && ViewOk(c, Net(c, k), Tree2(c, k), v) && v.tip == Two(c, k) && MainHasUndo(v.at, undo)
    ensures StopAt(c, Net(c, k), Tree3(c, k), undo, v, Id(c, Greedy(c, k))) == One(c, k)
  {
    hide TreeOk, Friendly, Genesis, First, Linked, Path, CalcWork, Tree1, Tree2, Tree3, Good, Greedy, ViewOk, OnMain, UndoMissing,
         Stacked, Extends,
         Fits, MayGrow, Second, MainHasUndo, StopAt, ForkHeight, LastGood, Replay;
    LineHolds(c, k);
    GreedyGrows(c, k);
    GreedyFits(c, k);
    TreeHasGreedy(c, k);
    OnSecond(c, k, Tree2(c, k), v);
    HasHeight(c, k, Tree3(c, k));
    SameFork(Tree3(c, k), v, One(c, k));
    StopsBelow(c, k, Tree3(c, k), undo, v, Id(c, Greedy(c, k)));
    LastGoodJustBelow(c, Net(c, k), Tree3(c, k), Id(c, Greedy(c, k)));
  }

  lemma {:induction false} TopStops(c: Crypto, k: Start, undo: map<Hash, Undo>, v: View)
    requires Friendly(c) && ViewOk(c, Net(c, k), Tree3(c, k), v) && v.tip == Two(c, k) && MainHasUndo(v.at, undo)
    ensures StopAt(c, Net(c, k), Tree4(c, k), undo, v, Id(c, Top(c, k))) == One(c, k)
  {
    hide TreeOk, Friendly, Genesis, First, Linked, Path, CalcWork, Tree1, Tree2, Tree3, Tree4, Good, Greedy, Top, ViewOk, OnMain,
         UndoMissing, Stacked,
         Extends, Fits, MayGrow, Second, MainHasUndo, StopAt, ForkHeight, LastGood, Replay;
    GreedyGrows(c, k);
    TopGrows(c, k);
    GreedyFits(c, k);
    TreeHasGreedy(c, k);
    OnSecond(c, k, Tree3(c, k), v);
    HasHeight(c, k, Tree4(c, k));
    ForkJustBelow(Tree4(c, k), v, Id(c, Greedy(c, k)));
    StopsBelow(c, k, Tree4(c, k), undo, v, Id(c, Top(c, k)));
    LastGoodJustBelow(c, Net(c, k), Tree4(c, k), Id(c, Greedy(c, k)));
    LastGoodOnce(c, Net(c, k), Tree4(c, k), Id(c, Top(c, k)));
  }

  lemma {:induction false} LastGoodOnce(c: Crypto, p: ChainParams, ix: Index, h: Hash)
    requires Linked(ix) && h in ix && ix[h].height > 0 && Prev(ix[h]) in ix && !Good(c, p, ix, h)
    ensures LastGood(c, p, ix, h) == LastGood(c, p, ix, Prev(ix[h]))
  {
    hide Linked, Good;
  }

  // ------------------------------------------------------------------------ what it leaves

  lemma {:induction false} MintedIsGone(c: Crypto, k: Start)
    requires Friendly(c)
    ensures Minted(c, k) in Replay(c.txId, [Genesis(c, k), First(c, k)])
    ensures Minted(c, k) !in Replay(c.txId, [Genesis(c, k), First(c, k), Second(c, k)])
  {
    hide MerkleRoot, StructureOk, BlockInputsOk, ChainOk, Replay, Genesis, First, Net, Coinbase, Spend, SpentSet, Connect, BlockOutputs;
    FirstIsAccepted(c, k);
    SecondIsAccepted(c, k);
    var two, b := [Genesis(c, k), First(c, k)], Second(c, k);
    SpendingPasses(c, k, Replay(c.txId, two));
    ReplayExtends(c, Net(c, k), two, b);
    ConnectClosedForm(c.txId, Replay(c.txId, two), b, 2);
    assert two + [b] == [Genesis(c, k), First(c, k), b];
  }

  /** The disk after a switch that disconnected the second block and failed. */
  ghost predicate TornHere(c: Crypto, k: Start, d: Disk) {
    Line(c, k, d.index) && Recoverable(c, Net(c, k), d) && d.tip == Some(Two(c, k)) && d.best == Some(One(c, k))
  }

  /** The coin the second block spent is still there; a restart does not remove it, and neither does the third block. */
  lemma {:induction false} StaysStale(c: Crypto, k: Start, d: Disk)
    requires Friendly(c) && TornHere(c, k, d)
    ensures C.Selectable(d) && C.SelectedTip(d) == Two(c, k) && !C.Unused(c, Net(c, k), d) && Linked(d.index) && Two(c, k) in d.index
    ensures var s := CoinsAt(c, d.index, Two(c, k)); !(d.coins.Keys <= s.Keys) && !AgreeAway(c.txId, d.coins, s, Third(c, k))
  {
    hide MerkleRoot, StructureOk, BlockInputsOk, Replay, AgreeAway, SpentSet, EnvOk, CalcWork, Genesis, First, Net, Coinbase, Spend,
         ChainOk,
         TreeOk, Path, Linked, UndoOk, Stacked;
    var s := CoinsAt(c, d.index, Two(c, k));
    MintedIsGone(c, k);
    NetIsUsable(c, k);
    HasHeight(c, k, d.index);
    SecondFits(c, k);
    SecondIsAccepted(c, k);
    CoinbaseIs(k, [1, 3]);
    PlainFits(c, k, Two(c, k), 3, k + 3);
    StructureHolds(c, k, Third(c, k), 3);
    MintingPasses(c, k, s, 3, Third(c, k));
    NextBatchMendsIff(c, Net(c, k), d, Two(c, k), Third(c, k));
  }

  lemma {:induction false} ThirdIsDue(c: Crypto, k: Start, ix: Index, undo: map<Hash, Undo>, v: View)
    requires Friendly(c) && Line(c, k, ix) && ViewOk(c, Net(c, k), ix, v) && v.tip == Two(c, k)
    ensures Due(c, Net(c, k), ix, undo, v, Id(c, Third(c, k)), Third(c, k), k + 4) == Extended
  {
    hide ViewOk, Due, BlockInputsOk, Friendly, Net, TreeOk, Genesis, Coinbase, MerkleRoot, First, Second, Fits, Good, Path, Linked,
         CalcWork, Stacked;
    SecondFits(c, k);
    PlainFits(c, k, Two(c, k), 3, k + 3);
    CoinbaseIs(k, [1, 3]);
    MintingPasses(c, k, v.coins, 3, Third(c, k));
    assert MayGrow(c, k, ix, Third(c, k), 3);
    ExtendsDue(c, k, ix, undo, v, Third(c, k), 3, k + 4);
  }

  // ------------------------------------------------------------------------ the run

  /** A block that is not stored is not on the main chain. */
  lemma {:induction false} NotStored(node: C.Chain, h: Hash)
    requires node.Valid() && h !in node.disk.index
    ensures OffMain(node.hashByHeight, h) && Linked(node.disk.index) && Sane(node.p) && ViewOk(node.c, node.p, node.disk.index, node.Memory())
  {
    hide EnvOk, UndoOk, Good, CoinsAt, C.AdmittedOk, OrphansOk;
    assert h !in node.heightByHash;
    node.UnknownIsOffMain(h);
  }

  lemma {:induction false} Knows(node: C.Chain)
    requires node.Valid()
    ensures node.tipHash in node.heightByHash && node.tipHash in node.disk.index && node.disk.tip == Some(node.tipHash)
    ensures Linked(node.disk.index) && node.utxoSet == CoinsAt(node.c, node.disk.index, node.tipHash)
    ensures forall h :: h in node.heightByHash ==> h in node.disk.index
  {
    hide EnvOk, TreeOk, UndoOk, Good, CoinsAt, C.AdmittedOk, OrphansOk, Linked;
    ViewFacts(node.c, node.p, node.disk.index, node.Memory());
  }

  lemma {:induction false} EmptyStore(c: Crypto, p: ChainParams)
    ensures C.Unused(c, p, Disk(map[], map[], None, 0, None, map[])) && !Recoverable(c, p, Disk(map[], map[], None, 0, None, map[]))
  {
  }

  lemma {:induction false} OriginIs(c: Crypto, k: Start)
    ensures map[GenesisHash(c, Net(c, k)) := GenesisRec(Net(c, k))] == Origin(c, k) && GenesisHash(c, Net(c, k)) == G(c, k)
    ensures One(c, k) == c.blockId(First(c, k).header) && Two(c, k) == c.blockId(Second(c, k).header)
  {
    hide Genesis, First, Second;
  }

  lemma {:induction false} TreesAre(c: Crypto, k: Start)
    ensures Tree1(c, k) == Origin(c, k)[One(c, k) := ChildRec(Origin(c, k), First(c, k))]
    ensures Tree2(c, k) == Tree1(c, k)[Two(c, k) := ChildRec(Tree1(c, k), Second(c, k))]
    ensures Tree3(c, k) == Tree2(c, k)[Id(c, Greedy(c, k)) := ChildRec(Tree2(c, k), Greedy(c, k))]
    ensures Tree4(c, k) == Tree3(c, k)[Id(c, Top(c, k)) := ChildRec(Tree3(c, k), Top(c, k))]
  {
    hide ChildRec, Genesis, First, Second, Greedy, Top, Origin;
  }

  /** From an empty store through the first two blocks. */
  method Start2(c: Crypto, k: Start) returns (node: C.Chain)
    requires Friendly(c)
    ensures fresh(node) && node.c == c && node.p == Net(c, k) && node.Valid() && node.InSync() && node.Undoable()
    ensures node.tipHash == Two(c, k) && node.disk.index == Tree2(c, k) && One(c, k) in node.heightByHash
  {
    hide EnvOk, Friendly, Net, First, Second, Genesis, Origin, Tree1, Tree2, ChildRec, C.Chain.Valid, Recoverable, Due, MainHasUndo,
         C.Unused, MayGrow, Line, Has,
         OffMain, ViewOk, Linked, Sane, CoinsAt, SyncDue, AgreeAway, BestOf, AllRecoverable, Extends, GenesisHash, GenesisRec,
         C.OnlyBadLeft, Path;
    NetIsUsable(c, k);
    EmptyStore(c, Net(c, k));
    OriginIs(c, k);
    node := new C.Chain.Open(c, Net(c, k), Disk(map[], map[], None, 0, None, map[]));
    FirstFits(c, k);
    LineHolds(c, k);
    SecondFits(c, k);
    NewBlocks(c, k);
    TreesAre(c, k);
    NotStored(node, One(c, k));
    Knows(node);
    FirstIsDue(c, k, node.disk.undo, node.Memory());
    var r1 := node.AcceptBlock(One(c, k), First(c, k), k + 4, false);
    assert node.disk.index == Tree1(c, k);
    NotStored(node, Two(c, k));
    Knows(node);
    SecondIsDue(c, k, node.disk.undo, node.Memory());
    var r2 := node.AcceptBlock(Two(c, k), Second(c, k), k + 4, false);
    assert node.disk.index == Tree2(c, k);
  }

  lemma {:induction false} NewBlocks(c: Crypto, k: Start)
    requires Friendly(c)
    ensures One(c, k) !in Origin(c, k) && Two(c, k) !in Tree1(c, k)
  {
    hide Friendly, Net, First, Second, Genesis, Child, Origin, Tree1, Tree2, Line, Has, MayGrow, TreeOk, Path, CalcWork, Good, Linked, Fits;
    OriginIsTree(c, k);
    OriginHasOne(c, k);
    LineHolds(c, k);
    FirstFits(c, k);
    SecondFits(c, k);
    LaterThan(c, Genesis(c, k), First(c, k));
    LaterThan(c, Genesis(c, k), Second(c, k));
    LaterThan(c, First(c, k), Second(c, k));
  }

  lemma {:induction false} TornByGreedy(c: Crypto, k: Start, d: Disk, v: View, d': Disk)
    requires Friendly(c) && d.index == Tree2(c, k) && ViewOk(c, Net(c, k), d.index, v) && v.tip == Two(c, k) && MainHasUndo(v.at, d.undo)
    requires Torn(c, Net(c, k), d, v, Id(c, Greedy(c, k)), ChildRec(d.index, Greedy(c, k)), d') && Recoverable(c, Net(c, k), d')
    requires d.tip == Some(Two(c, k))
    ensures TornHere(c, k, d')
  {
    hide Friendly, Net, First, Second, Genesis, Greedy, Tree1, Tree2, Tree3, Line, Recoverable, ViewOk, MainHasUndo, StopAt, MayGrow,
         Grown, ChildRec, Good,
         Stacked, CalcWork;
    TreesAre(c, k);
    GreedyGrows(c, k);
    GreedyStops(c, k, d.undo, v);
  }

  lemma {:induction false} TornByTop(c: Crypto, k: Start, d: Disk, v: View, d': Disk)
    requires Friendly(c) && d.index == Tree3(c, k) && ViewOk(c, Net(c, k), d.index, v) && v.tip == Two(c, k) && MainHasUndo(v.at, d.undo)
    requires Torn(c, Net(c, k), d, v, Id(c, Top(c, k)), ChildRec(d.index, Top(c, k)), d') && Recoverable(c, Net(c, k), d')
    requires d.tip == Some(Two(c, k))
    ensures TornHere(c, k, d')
  {
    hide Friendly, Net, First, Second, Genesis, Greedy, Top, Tree1, Tree2, Tree3, Tree4, Line, Recoverable, ViewOk, MainHasUndo,
         StopAt, MayGrow, Grown,
         ChildRec, Good, Stacked, CalcWork;
    TreesAre(c, k);
    TopGrows(c, k);
    TopStops(c, k, d.undo, v);
  }

  /** The rival, and the block on it if the rival is not tried at once: the switch fails with the second block disconnected. */
  method Tear(c: Crypto, k: Start) returns (node: C.Chain)
    requires Friendly(c)
    ensures fresh(node) && node.c == c && node.p == Net(c, k) && node.Valid() && node.tipHash == Two(c, k)
    ensures TornHere(c, k, node.disk) && !node.InSync()
  {
    hide EnvOk, Friendly, Net, First, Second, Genesis, Greedy, Top, Tree1, Tree2, Tree3, Tree4, ChildRec, C.Chain.Valid, Recoverable,
         Due, MainHasUndo,
         MayGrow, Line, Has, OffMain, ViewOk, Linked, Sane, CoinsAt, SyncDue, AgreeAway, BestOf, AllRecoverable, Extends, Path, Torn,
         TornHere, BytesLess,
         Grown, Idle, Good, Stacked, CalcWork, C.Rehung, WorkCounts, ForkOf;
    node := Start2(c, k);
    TreesAre(c, k);
    GreedyGrows(c, k);
    GreedyFits(c, k);
    var rival := Greedy(c, k);
    NotStored(node, Id(c, rival));
    Knows(node);
    ghost var d, v := node.disk, node.Memory();
    GreedyIsDue(c, k, d.undo, v);
    var r := node.AcceptBlock(Id(c, rival), rival, k + 4, false);
    if r.ReorgFailed? {
      TornByGreedy(c, k, d, v, node.disk);
    } else {
      TopGrows(c, k);
      TreeHasGreedy(c, k);
      NotStored(node, Id(c, Top(c, k)));
      Knows(node);
      d, v := node.disk, node.Memory();
      TopIsDue(c, k, d.undo, v);
      r := node.AcceptBlock(Id(c, Top(c, k)), Top(c, k), k + 4, false);
      TornByTop(c, k, d, v, node.disk);
    }
    TornIsTorn(c, k, node.disk);
  }

  lemma {:induction false} TornIsTorn(c: Crypto, k: Start, d: Disk)
    requires Friendly(c) && TornHere(c, k, d)
    ensures d.best != d.tip && d.tip == Some(Two(c, k)) && Recoverable(c, Net(c, k), d) && Line(c, k, d.index)
  {
    hide Friendly, Line, Recoverable, Net, First, Second;
    HasHeight(c, k, d.index);
  }

  /**
   * A restart from that disk: memory is right, but the spent coin stays on disk, now beside a best block that says the
   * chain is complete. The store cannot be opened again.
   */
  method RestartSpoils(c: Crypto, k: Start) returns (node: C.Chain, restarted: C.Chain)
    requires Friendly(c)
    ensures node.Valid() && C.Startable(c, Net(c, k), node.disk)
    ensures restarted.Valid() && restarted.c == c && restarted.p == Net(c, k) && restarted.tipHash == node.tipHash && restarted.log[0] == node.disk
    ensures restarted.disk.best == restarted.disk.tip == Some(restarted.tipHash) && !C.Startable(c, Net(c, k), restarted.disk)
  {
    hide Friendly, Net, First, Second, Genesis, C.Chain.Valid, Recoverable, Line, CoinsAt, TornHere, AgreeAway, Linked, C.Unused,
         C.SelectedTip, EnvOk,
         C.Selectable, C.StartableBefore, C.OnlyBadLeft, GenesisHash, GenesisRec, Third;
    node := Tear(c, k);
    NetIsUsable(c, k);
    TornIsTorn(c, k, node.disk);
    StaysStale(c, k, node.disk);
    restarted := new C.Chain.Open(c, Net(c, k), node.disk);
    Knows(restarted);
  }

  lemma {:induction false} Stands(node: C.Chain)
    requires node.Valid()
    ensures ViewOk(node.c, node.p, node.disk.index, node.Memory()) && Linked(node.disk.index) && Sane(node.p)
  {
    hide EnvOk, UndoOk, ViewOk, C.AdmittedOk, OrphansOk;
  }

  lemma {:induction false} ThirdOffMain(c: Crypto, k: Start, ix: Index, v: View)
    requires Friendly(c) && Line(c, k, ix) && ViewOk(c, Net(c, k), ix, v) && v.tip == Two(c, k)
    ensures OffMain(v.at, Id(c, Third(c, k)))
  {
    hide TreeOk, Good, Friendly, Genesis, First, Second, CalcWork, Linked, Path, Replay, HeightsOk, OnMain, Net, Stacked, UndoMissing,
         Third;
    OnSecond(c, k, ix, v);
    OriginIsTree(c, k);
    FirstFits(c, k);
    SecondFits(c, k);
    PlainFits(c, k, Two(c, k), 3, k + 3);
    ThirdIsPlain(c, k);
    MainAt(ix, v.at, v.height, v.tip, 1);
    LaterThan(c, Genesis(c, k), Third(c, k));
    LaterThan(c, First(c, k), Third(c, k));
    LaterThan(c, Second(c, k), Third(c, k));
  }

  lemma {:induction false} ThirdIsPlain(c: Crypto, k: Start)
    ensures Third(c, k) == Plain(c, k, Two(c, k), 3, k + 3)
  {
    hide Second, MerkleRoot, Coinbase;
  }

  /** The third block on that node: it extends the chain, and leaves a store that cannot be opened. */
  method NextBlockSpoils(c: Crypto, k: Start) returns (node: C.Chain)
    requires Friendly(c)
    ensures node.Valid() && node.c == c && node.p == Net(c, k) && node.tipHash == Id(c, Third(c, k))
    ensures node.disk.best == node.disk.tip == Some(node.tipHash) && !C.Startable(c, Net(c, k), node.disk)
  {
    hide EnvOk, Friendly, Net, First, Second, Third, Genesis, ChildRec, C.Chain.Valid, Recoverable, Due, MainHasUndo, Line, OffMain,
         ViewOk, Linked, Sane,
         CoinsAt, SyncDue, AgreeAway, BestOf, AllRecoverable, Extends, TornHere, C.Unused, Torn, Idle, C.Rehung, WorkCounts, ForkOf;
    node := Tear(c, k);
    TornIsTorn(c, k, node.disk);
    StaysStale(c, k, node.disk);
    Knows(node);
    Stands(node);
    ThirdIsPlain(c, k);
    PlainFits(c, k, Two(c, k), 3, k + 3);
    ThirdOffMain(c, k, node.disk.index, node.Memory());
    ThirdIsDue(c, k, node.disk.index, node.disk.undo, node.Memory());
    var r := node.AcceptBlock(Id(c, Third(c, k)), Third(c, k), k + 4, false);
    Knows(node);
    C.EitherWay(c, Net(c, k), node.disk);
  }
}
