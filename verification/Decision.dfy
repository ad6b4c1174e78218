/** What the chain manager decides about a block with a known parent, as a function of the state it meets. */
module Decision {
  import opened Types
  import opened Params
  import opened Utxo
  import opened TxValidation
  import opened Target
  import opened BlockRules
  import opened History
  import opened Headers
  import opened BlockTree
  import opened ChainState
  import opened ForkChoice

  datatype ReorgResult = Done | TooDeep | Failed

  /** What happened to a block whose parent is known. */
  datatype Outcome = Rejected | Extended | Reorganized | SideChain | DeepSideChain | ReorgFailed

  /** Which blocks count as admitted after the outcome. */
  predicate Admits(r: Outcome) {
    r.Extended? || r.Reorganized? || r.SideChain? || r.DeepSideChain?
  }

  // ---------------------------------------------------------------------------- the fork

  ghost predicate OffMain(at: map<nat, Hash>, h: Hash) {
    forall i :: i in at ==> at[i] != h
  }

  /** The nearest block of the main chain at or below a stored block. */
  ghost function MainAncestor(ix: Index, heightOf: map<Hash, nat>, at: map<nat, Hash>, h: Hash): Hash
    requires Linked(ix) && h in ix
    decreases ix[h].height
  {
    assert LinkedAt(ix, h);
    if OnMain(heightOf, at, h) || ix[h].height == 0 then h else MainAncestor(ix, heightOf, at, Prev(ix[h]))
  }

  /** The lowest block of the branch that leads to `h`: its parent is on the main chain. */
  ghost function BranchRoot(ix: Index, heightOf: map<Hash, nat>, at: map<nat, Hash>, h: Hash): Hash
    requires Linked(ix) && h in ix
    decreases ix[h].height
  {
    assert LinkedAt(ix, h);
    if ix[h].height == 0 || OnMain(heightOf, at, Prev(ix[h])) then h else BranchRoot(ix, heightOf, at, Prev(ix[h]))
  }

  /** How far a switch to a child of `parent` goes back. */
  ghost function ForkHeight(ix: Index, v: View, parent: Hash): nat {
    if Linked(ix) && parent in ix then
      var fork := MainAncestor(ix, v.heightOf, v.at, parent);
      if fork in ix then ix[fork].height else 0
    else 0
  }

  /** The block such a switch connects first. */
  ghost function FirstConnected(ix: Index, v: View, h: Hash): Hash {
    if Linked(ix) && h in ix then BranchRoot(ix, v.heightOf, v.at, h) else h
  }

  /** The fork does not depend on blocks beside the main chain that are stored or known in addition. */
  lemma {:induction false} AncestorStable(ix: Index, ix': Index, heightOf: map<Hash, nat>, at: map<nat, Hash>, h: Hash, n: nat, x: Hash)
    requires Linked(ix) && Linked(ix') && Extends(ix, ix') && OffMain(at, h) && x in ix
    ensures MainAncestor(ix', heightOf[h := n], at, x) == MainAncestor(ix, heightOf, at, x)
    ensures MainAncestor(ix', heightOf, at, x) == MainAncestor(ix, heightOf, at, x)
    decreases ix[x].height
  {
    KnownOffMain(heightOf, at, h, n, x);
    assert LinkedAt(ix, x) && LinkedAt(ix', x);
    if ix[x].height > 0 { AncestorStable(ix, ix', heightOf, at, h, n, Prev(ix[x])); }
  }

  lemma {:induction false} RootStable(ix: Index, heightOf: map<Hash, nat>, at: map<nat, Hash>, h: Hash, n: nat, x: Hash)
    requires Linked(ix) && OffMain(at, h) && x in ix
    ensures BranchRoot(ix, heightOf[h := n], at, x) == BranchRoot(ix, heightOf, at, x)
    decreases ix[x].height
  {
    assert LinkedAt(ix, x);
    KnownOffMain(heightOf, at, h, n, Prev(ix[x]));
    if ix[x].height > 0 { RootStable(ix, heightOf, at, h, n, Prev(ix[x])); }
  }

  lemma {:induction false} KnownOffMain(heightOf: map<Hash, nat>, at: map<nat, Hash>, h: Hash, n: nat, x: Hash)
    requires OffMain(at, h)
    ensures OnMain(heightOf[h := n], at, x) <==> OnMain(heightOf, at, x)
  {
  }

  lemma {:induction false} ForkStable(ix: Index, ix': Index, v: View, h: Hash, n: nat, x: Hash)
    requires Linked(ix) && Linked(ix') && Extends(ix, ix') && OffMain(v.at, h) && x in ix
    ensures ForkHeight(ix', v.(heightOf := v.heightOf[h := n]), x) == ForkHeight(ix, v, x)
    ensures ForkHeight(ix', v, x) == ForkHeight(ix, v, x)
  {
    hide OffMain, Linked;
    AncestorStable(ix, ix', v.heightOf, v.at, h, n, x);
    AncestorStored(ix, v.heightOf, v.at, x);
  }

  lemma {:induction false} AncestorStored(ix: Index, heightOf: map<Hash, nat>, at: map<nat, Hash>, x: Hash)
    requires Linked(ix) && x in ix
    ensures MainAncestor(ix, heightOf, at, x) in ix
    decreases ix[x].height
  {
    assert LinkedAt(ix, x);
    if ix[x].height > 0 && !OnMain(heightOf, at, x) { AncestorStored(ix, heightOf, at, Prev(ix[x])); }
  }

  lemma {:induction false} ForkNotAbove(ix: Index, v: View, x: Hash)
    requires Linked(ix) && x in ix
    ensures ForkHeight(ix, v, x) <= ix[x].height
    decreases ix[x].height
  {
    assert LinkedAt(ix, x);
    if ix[x].height > 0 && !OnMain(v.heightOf, v.at, x) { ForkNotAbove(ix, v, Prev(ix[x])); }
  }

  // --------------------------------------------------------------------------- undo data

  /** Every block of the main chain above genesis has stored undo data. */
  ghost predicate MainHasUndo(at: map<nat, Hash>, undo: map<Hash, Undo>) {
    forall i :: i in at && i > 0 ==> at[i] in undo
  }

  /** Some block of the main chain above `f` has no stored undo data. */
  ghost predicate UndoMissing(at: map<nat, Hash>, undo: map<Hash, Undo>, f: nat) {
    exists i :: i in at && i > f && at[i] !in undo
  }

  lemma {:induction false} NothingMissing(at: map<nat, Hash>, undo: map<Hash, Undo>, f: nat)
    requires MainHasUndo(at, undo)
    ensures !UndoMissing(at, undo, f)
  {
  }

  lemma {:induction false} MissingAtTip(ix: Index, at: map<nat, Hash>, n: nat, tip: Hash, undo: map<Hash, Undo>, f: nat)
    requires MainOk(ix, at, n, tip)
    ensures f >= n ==> !UndoMissing(at, undo, f)
    ensures f < n && tip !in undo ==> UndoMissing(at, undo, f)
  {
    if f < n && tip !in undo { assert n in at && at[n] == tip; }
  }

  lemma {:induction false} MissingStable(at: map<nat, Hash>, undo: map<Hash, Undo>, h: Hash, f: nat)
    requires OffMain(at, h)
    ensures UndoMissing(at, undo - {h}, f) <==> UndoMissing(at, undo, f)
  {
  }

  // ----------------------------------------------------------------------------- a switch

  ghost predicate BeyondDepth(p: ChainParams, v: View, f: nat) {
    p.maxReorgDepth > 0 && v.height - f > p.maxReorgDepth
  }

  /** A block to disconnect has no undo data, or the branch to connect does not validate. */
  ghost predicate SwitchFails(c: Crypto, p: ChainParams, ix: Index, undo: map<Hash, Undo>, v: View, f: nat, h: Hash) {
    UndoMissing(v.at, undo, f) || !Good(c, p, ix, h)
  }

  /** Not even the first step of the switch can be made: the tip cannot be disconnected, or the first block not connected. */
  ghost predicate SwitchIdle(c: Crypto, p: ChainParams, ix: Index, undo: map<Hash, Undo>, v: View, f: nat, first: Hash) {
    if f < v.height then v.tip !in undo else !Good(c, p, ix, first)
  }

  /** The height at which the branch of a stored block leaves the main chain. */
  ghost function ForkBelow(ix: Index, v: View, h: Hash): nat {
    if h in ix then ForkHeight(ix, v, Prev(ix[h])) else 0
  }

  /** Too deep by the depth test, failed by what must be disconnected and connected, done otherwise. */
  ghost function SwitchResult(c: Crypto, p: ChainParams, ix: Index, undo: map<Hash, Undo>, v: View, h: Hash): ReorgResult {
    var f := ForkBelow(ix, v, h);
    if BeyondDepth(p, v, f) then TooDeep else if SwitchFails(c, p, ix, undo, v, f, h) then Failed else Done
  }

  /** The first step of a switch to a stored block cannot be made. */
  ghost predicate Idle(c: Crypto, p: ChainParams, ix: Index, undo: map<Hash, Undo>, v: View, h: Hash) {
    SwitchIdle(c, p, ix, undo, v, ForkBelow(ix, v, h), FirstConnected(ix, v, h))
  }

  /** Where disconnecting from height `n` down to `f` comes to a stop. */
  ghost function StopsDown(at: map<nat, Hash>, undo: map<Hash, Undo>, n: nat, f: nat): nat {
    if n <= f || n !in at || at[n] !in undo then n else StopsDown(at, undo, n - 1, f)
  }

  /** The last validated block on the way to a stored block. */
  ghost function LastGood(c: Crypto, p: ChainParams, ix: Index, h: Hash): Hash
    requires Linked(ix) && h in ix
    decreases ix[h].height
  {
    assert LinkedAt(ix, h);
    if Good(c, p, ix, h) || ix[h].height == 0 then h else LastGood(c, p, ix, Prev(ix[h]))
  }

  /** Where a failing switch stops: at the first block that cannot be disconnected, else below the first that cannot be connected. */
  ghost function StopFrom(c: Crypto, p: ChainParams, ix: Index, undo: map<Hash, Undo>, v: View, f: nat, h: Hash): Hash {
    var n := StopsDown(v.at, undo, v.height, f);
    if UndoMissing(v.at, undo, f) && n in v.at then v.at[n]
    else if Linked(ix) && h in ix then LastGood(c, p, ix, h) else h
  }

  ghost function StopAt(c: Crypto, p: ChainParams, ix: Index, undo: map<Hash, Undo>, v: View, h: Hash): Hash {
    StopFrom(c, p, ix, undo, v, ForkBelow(ix, v, h), h)
  }

  lemma {:induction false} StopStable(at: map<nat, Hash>, undo: map<Hash, Undo>, h: Hash, n: nat, f: nat)
    requires OffMain(at, h)
    ensures StopsDown(at, undo - {h}, n, f) == StopsDown(at, undo, n, f)
  {
    if n > f && n in at && at[n] in undo { StopStable(at, undo, h, n - 1, f); }
  }

  /** The blocks on the way to `h` above a height. */
  ghost function WayAbove(ix: Index, h: Hash, f: nat): set<Hash> {
    set x | x in ix && ix[x].height > f && OnWay(ix, h, x)
  }

  /** What a switch to `h` touches: everything above the fork, on the old way and on the new. */
  ghost function SwitchTouches(ids: TxIds, ix: Index, v: View, h: Hash): set<OutPoint> {
    var f := ForkBelow(ix, v, h);
    TouchedBy(ids, ix, WayAbove(ix, v.tip, f) + WayAbove(ix, h, f))
  }

  /** Disk equals memory after a switch: undisturbed, or from any disk, if the two agreed on what the switch did not touch. */
  ghost predicate SyncAfterSwitch(c: Crypto, p: ChainParams, ix: Index, undo: map<Hash, Undo>, v: View, h: Hash, stored: Coins, sync: bool) {
    match SwitchResult(c, p, ix, undo, v, h)
    case TooDeep => sync
    case Failed => sync && Idle(c, p, ix, undo, v, h)
    case Done => var t := SwitchTouches(c.txId, ix, v, h); stored - t == v.coins - t
  }

  /** The disk a failed switch to `h` leaves: the block is stored, and the coins are those of the block where the switch stopped. */
  ghost predicate Torn(c: Crypto, p: ChainParams, d: Disk, v: View, h: Hash, rec: Rec, d': Disk) {
    var ix := d.index[h := rec];
    d' == d.(index := ix, undo := d.undo - {h}, best := Some(StopAt(c, p, ix, d.undo, v, h)), coins := d'.coins)
  }

  /** Knowing the block's height beforehand makes no difference to its switch. */
  lemma {:induction false} SwitchStable(c: Crypto, p: ChainParams, ix: Index, undo: map<Hash, Undo>, v: View, h: Hash, n: nat)
    requires Linked(ix) && OffMain(v.at, h) && h in ix && Prev(ix[h]) in ix
    ensures var w := v.(heightOf := v.heightOf[h := n]);
            && ForkBelow(ix, w, h) == ForkBelow(ix, v, h)
            && SwitchResult(c, p, ix, undo, w, h) == SwitchResult(c, p, ix, undo, v, h)
            && (Idle(c, p, ix, undo, w, h) <==> Idle(c, p, ix, undo, v, h))
            && StopAt(c, p, ix, undo, w, h) == StopAt(c, p, ix, undo, v, h)
            && SwitchTouches(c.txId, ix, w, h) == SwitchTouches(c.txId, ix, v, h)
  {
    hide TouchedBy, WayAbove, Linked, OffMain, MainAncestor, BranchRoot, Good, UndoMissing, StopsDown, LastGood;
    ForkStable(ix, ix, v, h, n, Prev(ix[h]));
    RootStable(ix, v.heightOf, v.at, h, n, h);
  }

  /** Storing the block moves neither its fork nor the undo data of the main chain. */
  lemma {:induction false} SwitchSame(c: Crypto, p: ChainParams, ix: Index, ix': Index, undo: map<Hash, Undo>, v: View, h: Hash)
    requires Linked(ix) && Linked(ix') && Extends(ix, ix') && OffMain(v.at, h) && h in ix' && Prev(ix'[h]) in ix
    requires v.height in v.at && v.at[v.height] == v.tip
    ensures ForkBelow(ix', v, h) == ForkHeight(ix, v, Prev(ix'[h]))
    ensures SwitchResult(c, p, ix', undo - {h}, v, h) == SwitchResult(c, p, ix', undo, v, h)
    ensures Idle(c, p, ix', undo - {h}, v, h) <==> Idle(c, p, ix', undo, v, h)
    ensures StopAt(c, p, ix', undo - {h}, v, h) == StopAt(c, p, ix', undo, v, h)
  {
    hide Linked, Good, UndoMissing, MainAncestor, BranchRoot, StopsDown, LastGood;
    StopStable(v.at, undo, h, v.height, ForkBelow(ix', v, h));
    ForkStable(ix, ix', v, h, 0, Prev(ix'[h]));
    MissingStable(v.at, undo, h, ForkBelow(ix', v, h));
    assert v.tip != h;
  }

  /** So neither makes a difference to disk and memory. */
  lemma {:induction false} SyncStable(c: Crypto, p: ChainParams, ix: Index, undo: map<Hash, Undo>, v: View, h: Hash, n: nat,
                                      stored: Coins, sync: bool)
    requires Linked(ix) && OffMain(v.at, h) && h in ix && Prev(ix[h]) in ix
    ensures SyncAfterSwitch(c, p, ix, undo, v.(heightOf := v.heightOf[h := n]), h, stored, sync) <==>
            SyncAfterSwitch(c, p, ix, undo, v, h, stored, sync)
  {
    hide Linked, OffMain, SwitchResult, Idle, SwitchTouches, ForkBelow, StopAt;
    SwitchStable(c, p, ix, undo, v, h, n);
  }

  lemma {:induction false} SyncSame(c: Crypto, p: ChainParams, ix: Index, ix': Index, undo: map<Hash, Undo>, v: View,
                                    h: Hash, stored: Coins, sync: bool)
    requires Linked(ix) && Linked(ix') && Extends(ix, ix') && OffMain(v.at, h) && h in ix' && Prev(ix'[h]) in ix
    requires v.height in v.at && v.at[v.height] == v.tip
    ensures SyncAfterSwitch(c, p, ix', undo - {h}, v, h, stored, sync) <==> SyncAfterSwitch(c, p, ix', undo, v, h, stored, sync)
  {
    hide Linked, OffMain, SwitchResult, Idle, SwitchTouches, ForkBelow, StopAt, Extends, ForkHeight;
    SwitchSame(c, p, ix, ix', undo, v, h);
  }

  // ----------------------------------------------------------------------- the whole decision

  /** The rules a block with a known parent must meet before it is stored. */
  ghost predicate NewBlockOk(c: Crypto, p: ChainParams, ix: Index, hash: Hash, block: Block, now: u32)
    requires Linked(ix) && Sane(p) && block.header.prevBlock in ix
  {
    var prev := block.header.prevBlock;
    && PowOk(hash, block.header.bits)
    && MayFollow(p, HeadersOf(Path(ix, prev)), block.header)
    && NotTooFuture(p, block.header, now)
    && StructureOk(c, p, block, ix[prev].height + 1)
  }

  /** A block that is stored: it meets the rules, and if it extends the tip its inputs are valid too. */
  ghost predicate Acceptable(c: Crypto, p: ChainParams, ix: Index, v: View, hash: Hash, block: Block, now: u32) {
    var prev := block.header.prevBlock;
    && Linked(ix) && Sane(p) && prev in ix
    && NewBlockOk(c, p, ix, hash, block, now)
    && block.transactions != []
    && (prev == v.tip ==> BlockInputsOk(c.verify, p, v.coins, ix[prev].height + 1, block))
  }

  /** The index record of a child of a stored block. */
  ghost function ChildRec(ix: Index, block: Block): Rec {
    var prev := block.header.prevBlock;
    if prev in ix then Rec(block, ix[prev].height + 1, ix[prev].work + CalcWork(block.header.bits))
    else Rec(block, 0, 0)
  }

  ghost function ForkOf(ix: Index, v: View, block: Block): nat {
    ForkHeight(ix, v, block.header.prevBlock)
  }

  /** What becomes of the block, decided by the state it meets. */
  ghost function Due(c: Crypto, p: ChainParams, ix: Index, undo: map<Hash, Undo>, v: View, hash: Hash, block: Block, now: u32): Outcome {
    var rec, f := ChildRec(ix, block), ForkOf(ix, v, block);
    if !Acceptable(c, p, ix, v, hash, block, now) then Rejected
    else if block.header.prevBlock == v.tip then Extended
    else if !Beats(rec.work, hash, v.work, v.tip) then SideChain
    else if BeyondDepth(p, v, f) then DeepSideChain
    else if SwitchFails(c, p, ix[hash := rec], undo, v, f, hash) then ReorgFailed
    else Reorganized
  }

  /** Disk equals memory after the block, in terms of the state it met. */
  ghost predicate SyncDue(c: Crypto, p: ChainParams, ix: Index, undo: map<Hash, Undo>, v: View, hash: Hash, block: Block, now: u32,
                          stored: Coins, sync: bool) {
    match Due(c, p, ix, undo, v, hash, block, now)
    case Extended => AgreeAway(c.txId, stored, v.coins, block)
    case Reorganized => SyncAfterSwitch(c, p, ix[hash := ChildRec(ix, block)], undo, v, hash, stored, sync)
    case ReorgFailed => SyncAfterSwitch(c, p, ix[hash := ChildRec(ix, block)], undo, v, hash, stored, sync)
    case _ => sync
  }

  function OutcomeOf(r: ReorgResult): Outcome {
    match r case Done => Reorganized case TooDeep => DeepSideChain case Failed => ReorgFailed
  }

  /** A block that beats the tip fares as the switch to it does. */
  lemma {:induction false} DueBySwitch(c: Crypto, p: ChainParams, ix: Index, undo: map<Hash, Undo>, v: View, hash: Hash, block: Block, now: u32)
    requires Acceptable(c, p, ix, v, hash, block, now) && block.header.prevBlock != v.tip
    requires Beats(ChildRec(ix, block).work, hash, v.work, v.tip)
    requires ForkBelow(ix[hash := ChildRec(ix, block)], v, hash) == ForkOf(ix, v, block)
    ensures Due(c, p, ix, undo, v, hash, block, now) == OutcomeOf(SwitchResult(c, p, ix[hash := ChildRec(ix, block)], undo, v, hash))
  {
    hide Acceptable, Beats, SwitchFails, ForkBelow, ForkOf, ChildRec;
  }

  /**
   * A tie in work: the first byte in which the hashes differ decides. With the smaller byte the block becomes the tip,
   * unless the switch is too deep or fails; with the larger one it stays beside the chain.
   */
  lemma {:induction false} TieIsDecided(c: Crypto, p: ChainParams, ix: Index, undo: map<Hash, Undo>, v: View, hash: Hash, block: Block,
                                        now: u32, i: nat)
    requires Acceptable(c, p, ix, v, hash, block, now) && block.header.prevBlock != v.tip && ChildRec(ix, block).work == v.work
    requires i < |hash| && i < |v.tip| && hash[..i] == v.tip[..i] && hash[i] != v.tip[i]
    ensures var r, f := Due(c, p, ix, undo, v, hash, block, now), ForkOf(ix, v, block);
            if hash[i] > v.tip[i] then r == SideChain
            else r == (if BeyondDepth(p, v, f) then DeepSideChain
                       else if SwitchFails(c, p, ix[hash := ChildRec(ix, block)], undo, v, f, hash) then ReorgFailed else Reorganized)
  {
    hide Acceptable, SwitchFails, BeyondDepth, ForkOf, ChildRec, BytesLess;
    if hash[i] < v.tip[i] {
      LessAtIsLess(hash, v.tip, i);
    } else {
      LessAtIsLess(v.tip, hash, i);
      BytesLessTrichotomy(hash, v.tip);
    }
  }

  lemma {:induction false} SyncBySwitch(c: Crypto, p: ChainParams, ix: Index, undo: map<Hash, Undo>, v: View, hash: Hash, block: Block, now: u32,
                                        stored: Coins, sync: bool)
    requires Acceptable(c, p, ix, v, hash, block, now) && block.header.prevBlock != v.tip
    requires Beats(ChildRec(ix, block).work, hash, v.work, v.tip)
    requires ForkBelow(ix[hash := ChildRec(ix, block)], v, hash) == ForkOf(ix, v, block)
    ensures SyncDue(c, p, ix, undo, v, hash, block, now, stored, sync) <==>
            SyncAfterSwitch(c, p, ix[hash := ChildRec(ix, block)], undo, v, hash, stored, sync)
  {
    hide Acceptable, Beats, SwitchResult, Due, ForkBelow, ForkOf, ChildRec, Idle, SwitchTouches;
    DueBySwitch(c, p, ix, undo, v, hash, block, now);
  }

  lemma {:induction false} SyncOtherwise(c: Crypto, p: ChainParams, ix: Index, undo: map<Hash, Undo>, v: View, hash: Hash, block: Block, now: u32,
                                         stored: Coins, sync: bool)
    ensures var r, s := Due(c, p, ix, undo, v, hash, block, now), SyncDue(c, p, ix, undo, v, hash, block, now, stored, sync);
            && (r.Rejected? || r.SideChain? || r.DeepSideChain? ==> (s <==> sync))
            && (r.Extended? ==> (s <==> AgreeAway(c.txId, stored, v.coins, block)))
  {
    hide Due, SyncAfterSwitch, AgreeAway;
  }

  lemma {:induction false} DueMeans(c: Crypto, p: ChainParams, ix: Index, undo: map<Hash, Undo>, v: View, hash: Hash, block: Block, now: u32)
    ensures var r := Due(c, p, ix, undo, v, hash, block, now);
            && (p.maxReorgDepth == 0 ==> !r.DeepSideChain?)
            && (r.Extended? ==> block.header.prevBlock == v.tip)
            && (r.ReorgFailed? ==> SwitchFails(c, p, ix[hash := ChildRec(ix, block)], undo, v, ForkOf(ix, v, block), hash))
  {
    hide Acceptable, Beats, SwitchFails, ForkOf, ChildRec;
  }

  lemma {:induction false} DueOtherwise(c: Crypto, p: ChainParams, ix: Index, undo: map<Hash, Undo>, v: View, hash: Hash, block: Block, now: u32)
    ensures var r, ok := Due(c, p, ix, undo, v, hash, block, now), Acceptable(c, p, ix, v, hash, block, now);
            && (!ok ==> r == Rejected)
            && (ok && block.header.prevBlock == v.tip ==> r == Extended)
            && (ok && block.header.prevBlock != v.tip && !Beats(ChildRec(ix, block).work, hash, v.work, v.tip) ==> r == SideChain)
  {
    hide Acceptable, Beats, SwitchFails, ForkBelow, ForkOf, ChildRec;
  }

  /** From a disk equal to memory, a switch that was due to fail left this disk, and its coins are not those of the tip. */
  ghost predicate FailedSwitch(c: Crypto, p: ChainParams, d: Disk, d': Disk) {
    d'.best != d'.tip && exists v: View, b: Block, now: u32 ::
      && ViewOk(c, p, d.index, v) && d.tip == Some(v.tip) && d.best == Some(v.tip) && d.coins == v.coins
      && Due(c, p, d.index, d.undo, v, c.blockId(b.header), b, now) == ReorgFailed
      && Torn(c, p, d, v, c.blockId(b.header), ChildRec(d.index, b), d')
  }

  lemma {:induction false} SwitchFailed(c: Crypto, p: ChainParams, d: Disk, v: View, b: Block, now: u32, d': Disk)
    requires ViewOk(c, p, d.index, v) && d.tip == Some(v.tip) && d.best == Some(v.tip) && d.coins == v.coins && d'.best != d'.tip
    requires Due(c, p, d.index, d.undo, v, c.blockId(b.header), b, now) == ReorgFailed
    requires Torn(c, p, d, v, c.blockId(b.header), ChildRec(d.index, b), d')
    ensures FailedSwitch(c, p, d, d')
  {
    hide ViewOk, Due, Torn;
  }

  // ------------------------------------------------------------------- what a refusal means

  /** The block breaks a rule on its own ancestors, or its inputs fail on the validated chain below it. */
  ghost predicate Refusable(c: Crypto, p: ChainParams, ix: Index, hash: Hash, block: Block, now: u32) {
    var prev := block.header.prevBlock;
    && Linked(ix) && Sane(p) && prev in ix
    && !(NewBlockOk(c, p, ix, hash, block, now) && block.transactions != []
         && (Good(c, p, ix, prev) ==> BlockInputsOk(c.verify, p, CoinsAt(c, ix, prev), ix[prev].height + 1, block)))
  }

  /** A refusal by any node, whatever its tip, means that. */
  lemma {:induction false} RejectedIsRefusable(c: Crypto, p: ChainParams, ix: Index, v: View, hash: Hash, block: Block, now: u32)
    requires ViewOk(c, p, ix, v) && Linked(ix) && Sane(p) && block.header.prevBlock in ix
    requires !Acceptable(c, p, ix, v, hash, block, now)
    ensures Refusable(c, p, ix, hash, block, now)
  {
    hide NewBlockOk, BlockInputsOk, Good, CoinsAt, ViewOk;
    ViewFacts(c, p, ix, v);
  }

  lemma {:induction false} RefusableStays(c: Crypto, p: ChainParams, ix: Index, ix': Index, hash: Hash, block: Block, now: u32)
    requires Refusable(c, p, ix, hash, block, now) && Linked(ix') && Extends(ix, ix')
    ensures Refusable(c, p, ix', hash, block, now)
  {
    hide BlockInputsOk, StructureOk, MayFollow, PowOk, ChainOk, Replay, HeadersOf;
    PathStable(ix, ix', block.header.prevBlock);
  }
}
