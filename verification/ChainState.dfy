/** What memory and disk mean: states of internal/chain/chain.go as values, and the steps between them. */
module ChainState {
  import opened Types
  import opened Params
  import opened Utxo
  import opened TxValidation
  import opened BlockRules
  import opened History
  import opened Headers
  import opened BlockTree

  type Undo = seq<SpentOutput>

  /** Everything a store call can change. Block and undo bytes count from the index write that refers to them. */
  datatype Disk = Disk(
    index: Index,
    undo: map<Hash, Undo>,
    tip: Option<Hash>,
    tipHeight: nat,
    best: Option<Hash>,
    coins: Coins)

  // ----------------------------------------------------------- blocks whose path is validated

  /** Every block of the path to `h` is accepted by both validators. */
  ghost predicate Good(c: Crypto, p: ChainParams, ix: Index, h: Hash) {
    Linked(ix) && h in ix && ChainOk(c, p, Path(ix, h))
  }

  /** The UTXO set after the path to `h`, from empty. */
  ghost function CoinsAt(c: Crypto, ix: Index, h: Hash): Coins
    requires Linked(ix) && h in ix
  {
    Replay(c.txId, Path(ix, h))
  }

  /** The undo data of `h` on its own path. */
  ghost function UndoAt(c: Crypto, ix: Index, h: Hash): Undo
    requires Linked(ix) && h in ix && ix[h].height > 0
  {
    assert LinkedAt(ix, h);
    var r := Connect(c.txId, CoinsAt(c, ix, Prev(ix[h])), ix[h].block, ix[h].height);
    if r.Some? then r.value.undo else []
  }

  ghost predicate UndoOk(c: Crypto, p: ChainParams, ix: Index, undo: map<Hash, Undo>) {
    && Linked(ix)
    && forall h :: h in undo ==> h in ix && ix[h].height > 0 && Good(c, p, ix, h) && undo[h] == UndoAt(c, ix, h)
  }

  lemma {:induction false} UndoFor(c: Crypto, p: ChainParams, ix: Index, undo: map<Hash, Undo>, h: Hash)
    requires UndoOk(c, p, ix, undo) && h in undo
    ensures Linked(ix) && h in ix && ix[h].height > 0 && Good(c, p, ix, h) && undo[h] == UndoAt(c, ix, h)
  {
  }

  lemma {:induction false} GoodStable(c: Crypto, p: ChainParams, ix: Index, ix': Index, h: Hash)
    requires Linked(ix) && Linked(ix') && Extends(ix, ix') && Good(c, p, ix, h)
    ensures Good(c, p, ix', h) && CoinsAt(c, ix', h) == CoinsAt(c, ix, h)
    ensures ix[h].height > 0 ==> UndoAt(c, ix', h) == UndoAt(c, ix, h)
  {
    hide ChainOk, Replay, Connect;
    PathStable(ix, ix', h);
    assert LinkedAt(ix, h);
    if ix[h].height > 0 { PathStable(ix, ix', Prev(ix[h])); }
  }

  /** Disconnecting a validated block with its undo data is stepping back to its parent. */
  lemma {:induction false} StepBack(c: Crypto, p: ChainParams, ix: Index, h: Hash)
    requires EnvOk(c, p) && Good(c, p, ix, h) && ix[h].height > 0
    ensures Prev(ix[h]) in ix && Good(c, p, ix, Prev(ix[h]))
    ensures Disconnect(c.txId, CoinsAt(c, ix, h), ix[h].block, UndoAt(c, ix, h)) == CoinsAt(c, ix, Prev(ix[h]))
  {
    assert LinkedAt(ix, h);
    var path, n := Path(ix, h), ix[h].height;
    assert path[..n] == Path(ix, Prev(ix[h]));
    ChainStep(c, p, path, n);
    NextBlockReverses(c, p, path[..n], path[n]);
  }

  /** Validating and connecting a stored child is stepping forward to it. */
  lemma {:induction false} StepForward(c: Crypto, p: ChainParams, ix: Index, h: Hash)
    requires Linked(ix) && h in ix && ix[h].height > 0 && Good(c, p, ix, Prev(ix[h]))
    requires StructureOk(c, p, ix[h].block, ix[h].height)
    requires BlockInputsOk(c.verify, p, CoinsAt(c, ix, Prev(ix[h])), ix[h].height, ix[h].block)
    ensures Good(c, p, ix, h)
    ensures Connect(c.txId, CoinsAt(c, ix, Prev(ix[h])), ix[h].block, ix[h].height) ==
            Some(Connected(CoinsAt(c, ix, h), UndoAt(c, ix, h)))
  {
    assert LinkedAt(ix, h);
    ReplayExtends(c, p, Path(ix, Prev(ix[h])), ix[h].block);
  }

  /** A validated block was accepted on the state its parent leaves. */
  lemma {:induction false} GoodWasValidated(c: Crypto, p: ChainParams, ix: Index, h: Hash)
    requires Good(c, p, ix, h) && ix[h].height > 0
    ensures Prev(ix[h]) in ix && Good(c, p, ix, Prev(ix[h])) && ix[h].block.transactions != []
    ensures BlockInputsOk(c.verify, p, CoinsAt(c, ix, Prev(ix[h])), ix[h].height, ix[h].block)
  {
    assert LinkedAt(ix, h);
    var path, n := Path(ix, h), ix[h].height;
    assert path[..n] == Path(ix, Prev(ix[h]));
    ChainStep(c, p, path, n);
  }

  // --------------------------------------------------------------------------- the memory

  /** Known heights are true heights, and the main chain is known. */
  ghost predicate HeightsOk(ix: Index, heightOf: map<Hash, nat>, at: map<nat, Hash>, n: nat) {
    && (forall h :: h in heightOf ==> h in ix && ix[h].height == heightOf[h])
    && (forall i: nat :: i in at && i <= n ==> at[i] in heightOf)
  }

  /** `x` is a block of the main chain. */
  predicate OnMain(heightOf: map<Hash, nat>, at: map<nat, Hash>, x: Hash) {
    x in heightOf && heightOf[x] in at && at[heightOf[x]] == x
  }

  /** The in-memory part of the node. */
  datatype View = View(
    tip: Hash, height: nat, work: nat, heightOf: map<Hash, nat>, at: map<nat, Hash>, coins: Coins)

  /** The main chain is the path to the tip, and the UTXO set is its replay. */
  ghost predicate ViewOk(c: Crypto, p: ChainParams, ix: Index, v: View) {
    && MainOk(ix, v.at, v.height, v.tip)
    && HeightsOk(ix, v.heightOf, v.at, v.height)
    && v.work == ix[v.tip].work
    && Good(c, p, ix, v.tip)
    && v.coins == CoinsAt(c, ix, v.tip)
  }

  lemma {:induction false} ViewStable(c: Crypto, p: ChainParams, ix: Index, ix': Index, v: View)
    requires Linked(ix) && Linked(ix') && Extends(ix, ix') && ViewOk(c, p, ix, v)
    ensures ViewOk(c, p, ix', v)
  {
    hide Good, CoinsAt, Linked;
    GoodStable(c, p, ix, ix', v.tip);
    MainStable(ix, ix', v.at, v.height, v.tip);
  }

  lemma {:induction false} UndoAdd(c: Crypto, p: ChainParams, ix: Index, undo: map<Hash, Undo>, h: Hash)
    requires UndoOk(c, p, ix, undo) && Good(c, p, ix, h) && h in ix && ix[h].height > 0
    ensures UndoOk(c, p, ix, undo[h := UndoAt(c, ix, h)])
  {
    hide Good, UndoAt;
  }

  lemma {:induction false} UndoDrop(c: Crypto, p: ChainParams, ix: Index, undo: map<Hash, Undo>, h: Hash)
    requires UndoOk(c, p, ix, undo)
    ensures UndoOk(c, p, ix, undo - {h})
  {
    hide Good, UndoAt;
  }

  lemma {:induction false} UndoStable(c: Crypto, p: ChainParams, ix: Index, ix': Index, undo: map<Hash, Undo>)
    requires Linked(ix) && Linked(ix') && Extends(ix, ix') && UndoOk(c, p, ix, undo)
    ensures UndoOk(c, p, ix', undo)
  {
    forall h | h in undo ensures Good(c, p, ix', h) && undo[h] == UndoAt(c, ix', h) {
      GoodStable(c, p, ix, ix', h);
    }
  }

  /** Admitting a block next to the main chain. */
  lemma {:induction false} AdmitStep(c: Crypto, p: ChainParams, ix: Index, undo: map<Hash, Undo>, v: View, h: Hash, r: Rec)
    requires EnvOk(c, p) && TreeOk(c, p, ix) && UndoOk(c, p, ix, undo) && ViewOk(c, p, ix, v)
    requires Admissible(c, p, ix, h, r)
    ensures TreeOk(c, p, ix[h := r]) && Extends(ix, ix[h := r]) && UndoOk(c, p, ix[h := r], undo)
    ensures ViewOk(c, p, ix[h := r], v) && ViewOk(c, p, ix[h := r], v.(heightOf := v.heightOf[h := r.height]))
  {
    hide TreeOk, UndoOk, ViewOk, Admissible, Good, CoinsAt, StructureOk, MayFollow, Extends, EnvOk, Linked;
    AdmissibleParent(c, p, ix, h, r);
    ChildIsNotGenesis(c, p, ix, r.block);
    InsertKeepsTree(c, p, ix, h, r);
    TreeIsLinked(c, p, ix);
    TreeIsLinked(c, p, ix[h := r]);
    UndoStable(c, p, ix, ix[h := r], undo);
    ViewStable(c, p, ix, ix[h := r], v);
    ViewLearns(c, p, ix[h := r], v, h);
  }

  /** Entering a stored block in the height index. */
  lemma {:induction false} ViewLearns(c: Crypto, p: ChainParams, ix: Index, v: View, h: Hash)
    requires ViewOk(c, p, ix, v) && h in ix
    ensures ViewOk(c, p, ix, v.(heightOf := v.heightOf[h := ix[h].height]))
  {
    hide Good, CoinsAt, MainOk;
  }

  lemma {:induction false} AdmissibleParent(c: Crypto, p: ChainParams, ix: Index, h: Hash, r: Rec)
    requires TreeOk(c, p, ix) && Admissible(c, p, ix, h, r)
    ensures Prev(r) in ix && c.blockId(r.block.header) == h && r.height == ix[Prev(r)].height + 1
    ensures StructureOk(c, p, r.block, r.height)
  {
  }

  lemma {:induction false} TreeIsLinked(c: Crypto, p: ChainParams, ix: Index)
    requires TreeOk(c, p, ix)
    ensures Linked(ix)
  {
  }

  lemma {:induction false} ViewFacts(c: Crypto, p: ChainParams, ix: Index, v: View)
    requires ViewOk(c, p, ix, v)
    ensures Linked(ix) && v.tip in ix && ix[v.tip].height == v.height && v.work == ix[v.tip].work
    ensures Good(c, p, ix, v.tip) && v.coins == CoinsAt(c, ix, v.tip)
    ensures v.tip in v.heightOf && v.heightOf[v.tip] == v.height
    ensures forall h :: h in v.heightOf ==> h in ix && ix[h].height == v.heightOf[h]
  {
  }

  lemma {:induction false} ViewExtends(c: Crypto, p: ChainParams, ix: Index, v: View, h: Hash)
    requires ViewOk(c, p, ix, v) && Good(c, p, ix, h) && ix[h].height == v.height + 1 && Prev(ix[h]) == v.tip
    ensures var n := ix[h].height;
            ViewOk(c, p, ix, View(h, n, ix[h].work, v.heightOf[h := n], v.at[n := h], CoinsAt(c, ix, h)))
  {
    hide CoinsAt, ChainOk;
    MainExtend(ix, v.at, v.height, v.tip, h);
  }

  /** Extending the main chain by a block accepted on the current set. */
  lemma {:induction false} ExtendStep(c: Crypto, p: ChainParams, ix: Index, undo: map<Hash, Undo>, v: View, h: Hash, r: Rec)
    requires EnvOk(c, p) && TreeOk(c, p, ix) && UndoOk(c, p, ix, undo) && ViewOk(c, p, ix, v)
    requires Admissible(c, p, ix, h, r) && Prev(r) == v.tip && r.block.transactions != []
    requires BlockInputsOk(c.verify, p, v.coins, r.height, r.block)
    ensures var ix' := ix[h := r];
            && TreeOk(c, p, ix') && Extends(ix, ix') && ViewOk(c, p, ix', v) && Linked(ix') && Good(c, p, ix', h)
            && Connect(c.txId, v.coins, r.block, r.height) == Some(Connected(CoinsAt(c, ix', h), UndoAt(c, ix', h)))
            && UndoOk(c, p, ix', undo[h := UndoAt(c, ix', h)])
            && r.height == v.height + 1
            && ViewOk(c, p, ix', View(h, r.height, r.work, v.heightOf[h := r.height], v.at[r.height := h], CoinsAt(c, ix', h)))
  {
    hide TreeOk, UndoOk, ViewOk, Good, CoinsAt, UndoAt, StructureOk, Admissible, Extends, EnvOk, BlockInputsOk, Connect;
    var ix' := ix[h := r];
    AdmitStep(c, p, ix, undo, v, h, r);
    AdmissibleParent(c, p, ix, h, r);
    ViewFacts(c, p, ix, v);
    ViewFacts(c, p, ix', v);
    StepForward(c, p, ix', h);
    UndoAdd(c, p, ix', undo, h);
    ViewExtends(c, p, ix', v, h);
  }

  // ------------------------------------------------------------------------------ the disk

  /** The persisted tip leads to a validated path. */
  ghost predicate TipStored(c: Crypto, p: ChainParams, d: Disk) {
    d.tip.Some? && Good(c, p, d.index, d.tip.value) && d.index[d.tip.value].height == d.tipHeight
  }

  /** The persisted UTXOs are the replay of the path to the persisted best block. */
  ghost predicate CoinsStored(c: Crypto, p: ChainParams, d: Disk) {
    d.best.Some? && Good(c, p, d.index, d.best.value) && d.coins == CoinsAt(c, d.index, d.best.value)
  }

  /** A disk the node can start from. */
  ghost predicate Recoverable(c: Crypto, p: ChainParams, d: Disk) {
    && TreeOk(c, p, d.index) && UndoOk(c, p, d.index, d.undo)
    && TipStored(c, p, d)
    && (d.best.Some? ==> CoinsStored(c, p, d))
  }

  /** Disk equal to a consistent memory is a disk to start from. */
  lemma {:induction false} SyncIsRecoverable(c: Crypto, p: ChainParams, d: Disk, v: View)
    requires TreeOk(c, p, d.index) && UndoOk(c, p, d.index, d.undo) && ViewOk(c, p, d.index, v)
    requires d.tip == Some(v.tip) && d.tipHeight == v.height && d.best == Some(v.tip) && d.coins == v.coins
    ensures Recoverable(c, p, d)
  {
    hide TreeOk, UndoOk, Good, CoinsAt;
  }

  ghost predicate AllRecoverable(c: Crypto, p: ChainParams, log: seq<Disk>, from: nat) {
    forall i :: from <= i < |log| ==> Recoverable(c, p, log[i])
  }

  lemma {:induction false} LogAppend(c: Crypto, p: ChainParams, log: seq<Disk>, from: nat, d: Disk)
    requires AllRecoverable(c, p, log, from) && Recoverable(c, p, d)
    ensures AllRecoverable(c, p, log + [d], from)
  {
  }

  /** One atomic UTXO batch: the coins and the best block move together. */
  lemma {:induction false} BatchRecoverable(c: Crypto, p: ChainParams, d: Disk, best: Hash)
    requires Recoverable(c, p, d) && Good(c, p, d.index, best)
    ensures Recoverable(c, p, d.(best := Some(best), coins := CoinsAt(c, d.index, best)))
  {
  }

  /** A batch for a validated block leaves a usable disk exactly when it wrote that block's replay. */
  lemma {:induction false} BatchUsableIff(c: Crypto, p: ChainParams, d: Disk, best: Hash, coins: Coins)
    requires Recoverable(c, p, d) && Good(c, p, d.index, best)
    ensures Recoverable(c, p, d.(best := Some(best), coins := coins)) <==> coins == CoinsAt(c, d.index, best)
  {
    hide TreeOk, UndoOk, Good, CoinsAt;
  }

  /** Where the tip points does not matter to the coins. */
  lemma {:induction false} TipUsableIff(c: Crypto, p: ChainParams, d: Disk, tip: Hash)
    requires TipStored(c, p, d) && Good(c, p, d.index, tip)
    ensures Recoverable(c, p, d.(tip := Some(tip), tipHeight := d.index[tip].height)) <==> Recoverable(c, p, d)
  {
    hide TreeOk, UndoOk, Good, CoinsAt;
  }

  lemma {:induction false} LogJoin(c: Crypto, p: ChainParams, log: seq<Disk>, log': seq<Disk>, from: nat)
    requires AllRecoverable(c, p, log, from) && log <= log' && AllRecoverable(c, p, log', |log|)
    ensures AllRecoverable(c, p, log', from)
  {
    forall i | from <= i < |log'| ensures Recoverable(c, p, log'[i]) {
      if i < |log| { assert log'[i] == log[i]; }
    }
  }

  lemma {:induction false} LogJoinIf(c: Crypto, p: ChainParams, sync: bool, log: seq<Disk>, log': seq<Disk>, from: nat)
    requires sync ==> AllRecoverable(c, p, log, from) && log <= log' && AllRecoverable(c, p, log', |log|)
    ensures sync ==> AllRecoverable(c, p, log', from)
  {
    hide AllRecoverable;
    if sync { LogJoin(c, p, log, log', from); }
  }

  /** The tip pointer moves to a validated block. */
  lemma {:induction false} TipRecoverable(c: Crypto, p: ChainParams, d: Disk, tip: Hash)
    requires Recoverable(c, p, d) && Good(c, p, d.index, tip)
    ensures Recoverable(c, p, d.(tip := Some(tip), tipHeight := d.index[tip].height))
  {
  }

  /** A bigger tree under the same chain. */
  lemma {:induction false} IndexRecoverable(c: Crypto, p: ChainParams, d: Disk, ix: Index, undo: map<Hash, Undo>)
    requires Recoverable(c, p, d) && TreeOk(c, p, ix) && Extends(d.index, ix) && UndoOk(c, p, ix, undo)
    ensures Recoverable(c, p, d.(index := ix, undo := undo))
  {
    GoodStable(c, p, d.index, ix, d.tip.value);
    if d.best.Some? { GoodStable(c, p, d.index, ix, d.best.value); }
  }

  // --------------------------------------------------------------------- the atomic batches

  /** The batch a connect writes: every output still in the set is put, then every spent outpoint deleted. */
  function PersistConnect(ids: TxIds, disk: Coins, b: Block, after: Coins, undo: Undo): Coins {
    (disk + (map op | op in OutputKeys(ids, b.transactions) && op in after :: after[op])) - Recorded(undo).Keys
  }

  lemma {:induction false} SpendInputsRecorded(s: Coins, w: Pending, ins: seq<TxInput>)
    requires Recorded(w.undo).Keys == w.spent
    ensures var r := SpendInputs(s, w, ins); r.Some? ==> Recorded(r.value.undo).Keys == r.value.spent
  {
    if ins != [] {
      var init, op := ins[..|ins| - 1], ins[|ins| - 1].previousOutPoint;
      SpendInputsRecorded(s, w, init);
      var mid := SpendInputs(s, w, init);
      if mid.Some? && SpendOne(s, mid.value, op).Some? {
        var e := if op in mid.value.created then mid.value.created[op] else s[op];
        RecordedAppend(mid.value.undo, SpentOutput(op, e));
      }
    }
  }

  lemma {:induction false} ApplyTxsRecorded(ids: TxIds, s: Coins, txs: seq<Transaction>, height: nat)
    ensures var r := ApplyTxs(ids, s, txs, height); r.Some? ==> Recorded(r.value.undo).Keys == SpentSet(txs)
  {
    ApplyTxsTotals(ids, s, txs, height);
    if txs != [] {
      var init := txs[..|txs| - 1];
      ApplyTxsRecorded(ids, s, init, height);
      ApplyTxsTotals(ids, s, init, height);
      var r := ApplyTxs(ids, s, init, height);
      if r.Some? { SpendInputsRecorded(s, r.value, txs[|txs| - 1].inputs); }
    }
  }

  /** The keys a block creates or spends. */
  function Touched(ids: TxIds, b: Block): set<OutPoint> {
    OutputKeys(ids, b.transactions) + SpentSet(b.transactions)
  }

  /** Those of a set of stored blocks. */
  ghost function TouchedBy(ids: TxIds, ix: Index, hs: set<Hash>): set<OutPoint> {
    set h, op | h in hs && h in ix && op in Touched(ids, ix[h].block) :: op
  }

  lemma {:induction false} TouchedMore(ids: TxIds, ix: Index, hs: set<Hash>, h: Hash)
    requires h in ix
    ensures TouchedBy(ids, ix, hs + {h}) == TouchedBy(ids, ix, hs) + Touched(ids, ix[h].block)
    ensures TouchedBy(ids, ix, {}) == {}
  {
    hide Touched;
  }

  lemma {:induction false} TouchedUnion(ids: TxIds, ix: Index, hs: set<Hash>, more: set<Hash>)
    ensures TouchedBy(ids, ix, hs + more) == TouchedBy(ids, ix, hs) + TouchedBy(ids, ix, more)
  {
    hide Touched;
  }

  /** Stored coins and memory agree on everything the block does not touch. */
  ghost predicate AgreeAway(ids: TxIds, stored: Coins, s: Coins, b: Block) {
    stored - Touched(ids, b) == s - Touched(ids, b)
  }

  // ------------------------------------------------------------ disk beside memory, step by step

  /** Coins on disk and in memory moved together: outside `touched` both are as they were, inside they agree. */
  ghost predicate Tracks(stored: Coins, s: Coins, stored': Coins, s': Coins, touched: set<OutPoint>) {
    && stored' - touched == stored - touched && s' - touched == s - touched
    && forall op :: op in touched ==> (op in stored' <==> op in s') && (op in s' ==> stored'[op] == s'[op])
  }

  lemma {:induction false} TracksNothing(stored: Coins, s: Coins)
    ensures Tracks(stored, s, stored, s, {})
  {
  }

  lemma {:induction false} TracksJoin(a: Coins, s: Coins, a': Coins, s': Coins, a'': Coins, s'': Coins, t: set<OutPoint>, u: set<OutPoint>)
    requires Tracks(a, s, a', s', t) && Tracks(a', s', a'', s'', u)
    ensures Tracks(a, s, a'', s'', t + u)
  {
    SameBeyond(a, a', a'', t, u);
    SameBeyond(s, s', s'', t, u);
    forall op | op in t + u ensures (op in a'' <==> op in s'') && (op in s'' ==> a''[op] == s''[op]) {
      if op !in u {
        assert op in a'' - u <==> op in a' - u;
        assert op in s'' - u <==> op in s' - u;
        if op in s'' { assert (a'' - u)[op] == (a' - u)[op] && (s'' - u)[op] == (s' - u)[op]; }
      }
    }
  }

  lemma {:induction false} SameBeyond(a: Coins, a': Coins, a'': Coins, t: set<OutPoint>, u: set<OutPoint>)
    requires a' - t == a - t && a'' - u == a' - u
    ensures a'' - (t + u) == a - (t + u)
  {
    assert a'' - (t + u) == (a'' - u) - t;
    assert a' - (t + u) == (a' - u) - t;
    assert a' - (t + u) == (a' - t) - u;
    assert a - (t + u) == (a - t) - u;
  }

  /** So they are equal afterwards exactly when they agreed on everything that was not touched. */
  lemma {:induction false} TracksIff(stored: Coins, s: Coins, stored': Coins, s': Coins, touched: set<OutPoint>)
    requires Tracks(stored, s, stored', s', touched)
    ensures stored' == s' <==> stored - touched == s - touched
  {
    if stored - touched == s - touched {
      forall op ensures op in stored' <==> op in s' {
        if op !in touched { assert op in stored' - touched <==> op in s' - touched; }
      }
      forall op | op in s' ensures stored'[op] == s'[op] {
        if op !in touched { assert (stored' - touched)[op] == (s' - touched)[op]; }
      }
    }
  }

  /** Disconnecting. */
  lemma {:induction false} BackTracks(ids: TxIds, stored: Coins, s: Coins, b: Block, undo: Undo)
    ensures Tracks(stored, s, Disconnect(ids, stored, b, undo), Disconnect(ids, s, b, undo), OutputKeys(ids, b.transactions) + Recorded(undo).Keys)
  {
    var outs, rec := OutputKeys(ids, b.transactions), Recorded(undo);
    RestoreIsOverlay(stored - outs, undo);
    RestoreIsOverlay(s - outs, undo);
    Overlaid(stored, outs, rec);
    Overlaid(s, outs, rec);
  }

  lemma {:induction false} Overlaid(s: Coins, outs: set<OutPoint>, rec: Coins)
    ensures ((s - outs) + rec) - (outs + rec.Keys) == s - (outs + rec.Keys)
  {
  }

  /** Connecting, by the batch of the block. */
  lemma {:induction false} ForwardTracks(ids: TxIds, stored: Coins, s: Coins, b: Block, height: nat)
    requires Connect(ids, s, b, height).Some?
    ensures var r := Connect(ids, s, b, height).value;
            Tracks(stored, s, PersistConnect(ids, stored, b, r.coins, r.undo), r.coins, Touched(ids, b))
  {
    ApplyTxsRecorded(ids, s, b.transactions, height);
    ConnectClosedForm(ids, s, b, height);
    BlockOutputKeys(ids, b.transactions, height);
    BatchTracks(stored, s, BlockOutputs(ids, b.transactions, height), SpentSet(b.transactions));
  }

  lemma {:induction false} BatchTracks(stored: Coins, s: Coins, outs: Coins, spent: set<OutPoint>)
    ensures var after := (s - spent) + (outs - spent);
            var written := (stored + (map op | op in outs.Keys && op in after :: after[op])) - spent;
            Tracks(stored, s, written, after, outs.Keys + spent)
  {
    var after := (s - spent) + (outs - spent);
    var written := (stored + (map op | op in outs.Keys && op in after :: after[op])) - spent;
    var touched := outs.Keys + spent;
    assert written - touched == stored - touched;
    assert after - touched == s - touched;
  }

  /** The undo data of a validated block names what it spends. */
  lemma {:induction false} UndoTouches(c: Crypto, p: ChainParams, ix: Index, h: Hash)
    requires Good(c, p, ix, h) && ix[h].height > 0
    ensures OutputKeys(c.txId, ix[h].block.transactions) + Recorded(UndoAt(c, ix, h)).Keys == Touched(c.txId, ix[h].block)
  {
    hide ApplyTxs, ChainOk, CoinsAt, BlockInputsOk, OutputKeys, SpentSet, Recorded;
    GoodWasValidated(c, p, ix, h);
    var s, b, n := CoinsAt(c, ix, Prev(ix[h])), ix[h].block, ix[h].height;
    AcceptedBlockReverses(c.txId, c.verify, p, s, n, b);
    ApplyTxsRecorded(c.txId, s, b.transactions, n);
  }

  lemma {:induction false} AgreeWithItself(ids: TxIds, s: Coins, b: Block)
    ensures AgreeAway(ids, s, s, b)
  {
  }

  /** The batch written for a block leaves disk equal to memory exactly when they agreed away from the block. */
  lemma {:induction false} PersistExactIff(ids: TxIds, disk: Coins, s: Coins, b: Block, height: nat)
    requires Connect(ids, s, b, height).Some?
    ensures var r := Connect(ids, s, b, height).value;
            PersistConnect(ids, disk, b, r.coins, r.undo) == r.coins <==> AgreeAway(ids, disk, s, b)
  {
    hide Connect, PersistConnect, Touched;
    var r := Connect(ids, s, b, height).value;
    ForwardTracks(ids, disk, s, b, height);
    TracksIff(disk, s, PersistConnect(ids, disk, b, r.coins, r.undo), r.coins, Touched(ids, b));
  }

  /** What the tip block spent is on a chain no later block can touch again, and what it created is its own. */
  lemma {:induction false} TipTouchesAlone(c: Crypto, p: ChainParams, path: seq<Block>, b: Block)
    requires Ideal(c) && GenesisOk(c, p) && ChainOk(c, p, path) && |path| > 1 && StructureOk(c, p, b, |path|)
    requires BlockInputsOk(c.verify, p, Replay(c.txId, path), |path|, b)
    ensures var n := |path| - 1;
            var before, after, tip := Replay(c.txId, path[..n]), Replay(c.txId, path), path[n].transactions;
            var outs := BlockOutputs(c.txId, tip, n);
            && SpentSet(tip) <= before.Keys && outs.Keys !! before.Keys && outs.Keys == OutputKeys(c.txId, tip)
            && after == (before - SpentSet(tip)) + outs
            && SpentSet(b.transactions) <= after.Keys
            && before.Keys + outs.Keys !! OutputKeys(c.txId, b.transactions)
  {
    hide StructureOk, BlockInputsOk, ChainOk, Ideal, GenesisOk, Connect, Accounted;
    var n := |path| - 1;
    var before, tip := Replay(c.txId, path[..n]), path[n];
    ChainStep(c, p, path, n);
    NextBlockReverses(c, p, path[..n], tip);
    ConnectClosedForm(c.txId, before, tip, n);
    SpendsAreThere(c, p, before, n, tip) by { HasTransactions(c, p, tip, n); }
    BlockOutputKeys(c.txId, tip.transactions, n);
    FreshKeys(c.txId, before, tip.transactions);
    var outs := BlockOutputs(c.txId, tip.transactions, n);
    assert outs - SpentSet(tip.transactions) == outs;
    assert path[..n] + [tip] == path;
    ReplayExtends(c, p, path[..n], tip);
    HasTransactions(c, p, b, |path|);
    SpendsAreThere(c, p, Replay(c.txId, path), |path|, b);
    NewKeys(c, p, path, b);
  }

  lemma {:induction false} FreshKeys(ids: TxIds, s: Coins, txs: seq<Transaction>)
    requires FreshOutputs(ids, s, txs)
    ensures OutputKeys(ids, txs) !! s.Keys
  {
    forall op | op in OutputKeys(ids, txs) ensures op !in s { var i := OutputKeyOf(ids, txs, op); }
  }

  /** The next block creates no outpoint of any transaction the chain has. */
  lemma {:induction false} NewKeys(c: Crypto, p: ChainParams, path: seq<Block>, b: Block)
    requires Ideal(c) && GenesisOk(c, p) && ChainOk(c, p, path) && |path| > 1 && StructureOk(c, p, b, |path|)
    requires BlockInputsOk(c.verify, p, Replay(c.txId, path), |path|, b)
    ensures var n := |path| - 1;
            Replay(c.txId, path[..n]).Keys + OutputKeys(c.txId, path[n].transactions) !! OutputKeys(c.txId, b.transactions)
  {
    hide StructureOk, BlockInputsOk, ChainOk, Replay;
    var n := |path| - 1;
    ChainStep(c, p, path, n);
    ChainAccounted(c, p, path);
    ChainAccounted(c, p, path[..n]);
    AcceptedIsFresh(c, p, TxsOf(path), Replay(c.txId, path), |path|, b);
    forall op | op in OutputKeys(c.txId, b.transactions)
      ensures op !in Replay(c.txId, path[..n]) && op !in OutputKeys(c.txId, path[n].transactions)
    {
      var i := OutputKeyOf(c.txId, b.transactions, op);
      if op in OutputKeys(c.txId, path[n].transactions) {
        var j := OutputKeyOf(c.txId, path[n].transactions, op);
        TxsOfMember(path, n, j);
      }
    }
  }

  /**
   * After a failed switch that stopped just below the tip: the batch of the next block of the chain mends the disk
   * exactly when the tip block spent nothing and the next block spends all it created. Any other block leaves coins
   * on disk that the chain does not have, or lacks some that it has.
   */
  lemma {:induction false} NextBatchMendsIff(c: Crypto, p: ChainParams, d: Disk, h: Hash, b: Block)
    requires EnvOk(c, p) && Recoverable(c, p, d) && Good(c, p, d.index, h) && d.index[h].height > 0
    requires d.best == Some(Prev(d.index[h]))
    requires StructureOk(c, p, b, d.index[h].height + 1)
    requires BlockInputsOk(c.verify, p, CoinsAt(c, d.index, h), d.index[h].height + 1, b)
    ensures AgreeAway(c.txId, d.coins, CoinsAt(c, d.index, h), b) <==>
            var tip := d.index[h].block.transactions;
            SpentSet(tip) == {} && OutputKeys(c.txId, tip) <= SpentSet(b.transactions)
  {
    hide TreeOk, UndoOk, StructureOk, BlockInputsOk, ChainOk, Ideal, GenesisOk, Replay, OutputKeys, SpentSet;
    var path := Path(d.index, h);
    assert LinkedAt(d.index, h);
    assert path[..|path| - 1] == Path(d.index, Prev(d.index[h]));
    TipTouchesAlone(c, p, path, b);
    var before, after := Replay(c.txId, path[..|path| - 1]), Replay(c.txId, path);
    var tip := d.index[h].block.transactions;
    MendAlgebra(before, BlockOutputs(c.txId, tip, d.index[h].height), SpentSet(tip),
                OutputKeys(c.txId, b.transactions), SpentSet(b.transactions));
  }

  lemma {:induction false} MendAlgebra(before: Coins, outs: Coins, spent: set<OutPoint>, created: set<OutPoint>, used: set<OutPoint>)
    requires spent <= before.Keys && outs.Keys !! before.Keys && before.Keys + outs.Keys !! created
    requires used <= ((before - spent) + outs).Keys
    ensures var after, touched := (before - spent) + outs, created + used;
            before - touched == after - touched <==> spent == {} && outs.Keys <= used
  {
    var after, touched := (before - spent) + outs, created + used;
    if spent == {} && outs.Keys <= used {
      assert before - touched == after - touched;
    } else if spent != {} {
      var op :| op in spent;
      assert op in before - touched && op !in after - touched;
    } else {
      var op :| op in outs.Keys && op !in used;
      assert op in after - touched && op !in before - touched;
    }
  }

  /**
   * Power lost after a reorganisation disconnected only the tip. The rebuilt set goes over the stored coins, and
   * that leaves exactly the rebuilt set just when the tip block spends nothing.
   */
  lemma {:induction false} InterruptedDisconnectHealsIff(c: Crypto, p: ChainParams, ix: Index, h: Hash)
    requires EnvOk(c, p) && Good(c, p, ix, h) && ix[h].height > 0
    ensures Prev(ix[h]) in ix
    ensures CoinsAt(c, ix, Prev(ix[h])).Keys <= CoinsAt(c, ix, h).Keys <==> SpentSet(ix[h].block.transactions) == {}
  {
    hide EnvOk, ChainOk, StructureOk, Path, Replay;
    GoodWasValidated(c, p, ix, h);
    var before, b := CoinsAt(c, ix, Prev(ix[h])), ix[h].block;
    GoodStructure(c, p, ix, h);
    StepForward(c, p, ix, h);
    AcceptedSpends(c.verify, p, before, ix[h].height, b.transactions);
    ConnectClosedForm(c.txId, before, b, ix[h].height);
    if SpentSet(b.transactions) != {} {
      var op :| op in SpentSet(b.transactions);
      assert op in before && op !in CoinsAt(c, ix, h);
    }
  }

  lemma {:induction false} GoodStructure(c: Crypto, p: ChainParams, ix: Index, h: Hash)
    requires Good(c, p, ix, h) && ix[h].height > 0
    ensures StructureOk(c, p, ix[h].block, ix[h].height)
  {
    ChainStep(c, p, Path(ix, h), ix[h].height);
  }
}
