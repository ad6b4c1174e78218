/** States of the small network in which the chain manager refuses, or loses, a valid block. */
module Cases {
  import opened Types
  import opened Params
  import opened Utxo
  import opened TxValidation
  import opened Merkle
  import opened Target
  import opened BlockRules
  import opened History
  import opened Headers
  import opened BlockTree
  import opened ChainState
  import opened ForkChoice
  import opened Decision
  import opened OrphanQueue
  import opened Sweep
  import opened Witness
  import opened Example

  /** A node just started: in sync, it knows all that is stored, and its tip is the best of it. */
  ghost predicate Running(c: Crypto, p: ChainParams, d: Disk, v: View) {
    && EnvOk(c, p) && Recoverable(c, p, d) && ViewOk(c, p, d.index, v)
    && d.tip == Some(v.tip) && d.tipHeight == v.height && d.best == Some(v.tip) && d.coins == v.coins
    && v.heightOf.Keys == d.index.Keys && BestOf(d.index, d.index.Keys, v.tip)
  }

  lemma {:induction false} RunningOn(c: Crypto, k: Start, ix: Index, undo: map<Hash, Undo>, tip: Hash) returns (d: Disk, v: View)
    requires Friendly(c) && TreeOk(c, Net(c, k), ix) && Good(c, Net(c, k), ix, tip) && UndoOk(c, Net(c, k), ix, undo)
    requires BestOf(ix, ix.Keys, tip)
    ensures Running(c, Net(c, k), d, v) && d.index == ix && d.undo == undo && v.tip == tip
  {
    hide TreeOk, Good, EnvOk, UndoOk, ViewOk, BestOf, Net, Friendly, Recoverable;
    NetIsUsable(c, k);
    v := ViewOn(c, Net(c, k), ix, tip);
    d := Disk(ix, undo, Some(tip), v.height, Some(tip), v.coins);
    SyncIsRecoverable(c, Net(c, k), d, v);
  }

  /** A child of a block beside the tip, as heavy as the tip: fork depth, undo data and validity decide. */
  lemma {:induction false} BesideDue(c: Crypto, k: Start, ix: Index, undo: map<Hash, Undo>, v: View, x: Block, h: u8, now: u32)
    requires Friendly(c) && MayGrow(c, k, ix, x, h) && ViewOk(c, Net(c, k), ix, v) && x.header.timestamp <= now
    requires x.header.prevBlock != v.tip && x.header.prevBlock in ix && ix[x.header.prevBlock].work == v.work
    ensures var f := ForkHeight(ix, v, x.header.prevBlock);
            Due(c, Net(c, k), ix, undo, v, Id(c, x), x, now) ==
            if BeyondDepth(Net(c, k), v, f) then DeepSideChain
            else if SwitchFails(c, Net(c, k), Child(c, ix, x), undo, v, f, Id(c, x)) then ReorgFailed else Reorganized
  {
    hide MayGrow, ViewOk, CalcWork, ForkHeight, SwitchFails, BeyondDepth, NewBlockOk, Linked, Sane, Net, Friendly, Grown;
    GetsIn(c, k, ix, x, h, now);
    MayGrowFacts(c, k, ix, x, h);
    BlocksHaveWork();
  }

  lemma {:induction false} MayGrowFacts(c: Crypto, k: Start, ix: Index, x: Block, h: u8)
    requires MayGrow(c, k, ix, x, h)
    ensures x.header.bits == BITS
  {
    hide TreeOk, MerkleRoot;
  }

  // ------------------------------------------------------------------------ two equal branches

  /** Two blocks of equal work on one parent, in byte order. */
  function Low(c: Crypto, a: Block, b: Block): Block {
    if BytesLess(Id(c, a), Id(c, b)) then a else b
  }

  function High(c: Crypto, a: Block, b: Block): Block {
    if BytesLess(Id(c, a), Id(c, b)) then b else a
  }

  lemma {:induction false} LowIsLess(c: Crypto, a: Block, b: Block)
    requires Friendly(c) && a.header.timestamp != b.header.timestamp
    ensures BytesLess(Id(c, Low(c, a, b)), Id(c, High(c, a, b))) && Id(c, Low(c, a, b)) != Id(c, High(c, a, b))
  {
    hide BytesLess, Friendly;
    DifferentTimes(c, a, b);
    BytesLessTrichotomy(Id(c, a), Id(c, b));
  }

  /** A stored, validated block with all that matters here. */
  ghost predicate Has(c: Crypto, k: Start, ix: Index, b: Block, n: nat) {
    && Id(c, b) in ix && ix[Id(c, b)] == Rec(b, n, Stacked(n)) && Good(c, Net(c, k), ix, Id(c, b))
  }

  lemma {:induction false} HasStays(c: Crypto, k: Start, ix: Index, ix': Index, b: Block, n: nat)
    requires Has(c, k, ix, b, n) && Linked(ix) && Linked(ix') && Extends(ix, ix')
    ensures Has(c, k, ix', b, n)
  {
    hide Good, Linked, CalcWork, Net;
    GoodStable(c, Net(c, k), ix, ix', Id(c, b));
  }

  /** One more block that only mints, on a validated one. */
  lemma {:induction false} HasNext(c: Crypto, k: Start, ix: Index, prev: Block, n: u8, time: u32)
    requires Friendly(c) && TreeOk(c, Net(c, k), ix) && Has(c, k, ix, prev, n) && prev.header.timestamp < time && n < 255
    ensures var b := Plain(c, k, Id(c, prev), n + 1, time);
            var ix' := Child(c, ix, b);
            && MayGrow(c, k, ix, b, n + 1) && b.header.prevBlock == Id(c, prev) && b.header.timestamp == time
            && TreeOk(c, Net(c, k), ix') && Linked(ix) && Linked(ix') && Extends(ix, ix') && ix'.Keys == ix.Keys + {Id(c, b)}
            && Has(c, k, ix', b, n + 1)
  {
    hide TreeOk, Good, CalcWork, Net, Friendly, Plain, NewBlockOk, BlockInputsOk, Sane, MayGrow, Linked, Extends, Child, CoinsAt;
    var b := Plain(c, k, Id(c, prev), n + 1, time);
    PlainGetsIn(c, k, ix, Id(c, prev), n + 1, time, time);
    assert Child(c, ix, b)[Id(c, b)] == ChildRec(ix, b);
    assert Stacked(n + 1) == Stacked(n) + CalcWork(BITS);
  }

  lemma {:induction false} HasOrigin(c: Crypto, k: Start)
    requires Friendly(c)
    ensures TreeOk(c, Net(c, k), Origin(c, k)) && Has(c, k, Origin(c, k), Genesis(c, k), 0) && Genesis(c, k).header.timestamp == k
    ensures Origin(c, k).Keys == {Id(c, Genesis(c, k))}
  {
    hide TreeOk, Good, CalcWork, Net, Friendly, Linked, Path, MerkleRoot;
    OriginIsTree(c, k);
  }

  // ------------------------------------------------------------- two siblings and their children

  function F(c: Crypto, k: Start): Block { Plain(c, k, Id(c, Genesis(c, k)), 1, k + 1) }

  function P(c: Crypto, k: Start): Block { Plain(c, k, Id(c, F(c, k)), 2, k + 2) }

  function Q(c: Crypto, k: Start): Block { Plain(c, k, Id(c, F(c, k)), 2, k + 3) }

  function Tip(c: Crypto, k: Start): Block { Low(c, P(c, k), Q(c, k)) }

  function Beside(c: Crypto, k: Start): Block { High(c, P(c, k), Q(c, k)) }

  ghost function Forked(c: Crypto, k: Start): Index {
    Child(c, Child(c, Child(c, Origin(c, k), F(c, k)), Tip(c, k)), Beside(c, k))
  }

  lemma {:induction false} ForkedIsTree(c: Crypto, k: Start)
    requires Friendly(c)
    ensures var ix := Forked(c, k);
            && TreeOk(c, Net(c, k), ix) && Linked(ix)
            && Has(c, k, ix, Genesis(c, k), 0) && Has(c, k, ix, F(c, k), 1) && Has(c, k, ix, Tip(c, k), 2) && Has(c, k, ix, Beside(c, k), 2)
            && ix.Keys == {Id(c, Genesis(c, k)), Id(c, F(c, k)), Id(c, Tip(c, k)), Id(c, Beside(c, k))}
    ensures BytesLess(Id(c, Tip(c, k)), Id(c, Beside(c, k))) && Id(c, Tip(c, k)) != Id(c, Beside(c, k))
    ensures Tip(c, k).header.prevBlock == Id(c, F(c, k)) && Beside(c, k).header.prevBlock == Id(c, F(c, k))
    ensures Beside(c, k).header.timestamp <= k + 3
  {
    hide TreeOk, Has, Friendly, MayGrow, Linked, Extends, Plain, Genesis, Origin, Child, BytesLess, Net;
    HasOrigin(c, k);
    var ix0 := Origin(c, k);
    HasNext(c, k, ix0, Genesis(c, k), 0, k + 1);
    var ix1 := Child(c, ix0, F(c, k));
    HasStays(c, k, ix0, ix1, Genesis(c, k), 0);
    HasNext(c, k, ix1, F(c, k), 1, k + 2);
    HasNext(c, k, ix1, F(c, k), 1, k + 3);
    LowIsLess(c, P(c, k), Q(c, k));
    var ix2 := Child(c, ix1, Tip(c, k));
    HasStays(c, k, ix1, ix2, Genesis(c, k), 0);
    HasStays(c, k, ix1, ix2, F(c, k), 1);
    HasNext(c, k, ix2, F(c, k), 1, k + 2);
    HasNext(c, k, ix2, F(c, k), 1, k + 3);
    var ix3 := Child(c, ix2, Beside(c, k));
    HasStays(c, k, ix2, ix3, Genesis(c, k), 0);
    HasStays(c, k, ix2, ix3, F(c, k), 1);
    HasStays(c, k, ix2, ix3, Tip(c, k), 2);
  }

  lemma {:induction false} TipIsBest(c: Crypto, k: Start)
    requires Friendly(c)
    ensures BestOf(Forked(c, k), Forked(c, k).Keys, Id(c, Tip(c, k)))
  {
    hide TreeOk, Good, Friendly, Linked, Plain, Genesis, CalcWork, Forked, BytesLess, Net, Tip, Beside;
    ForkedIsTree(c, k);
    BlocksHaveWork();
    assert Stacked(1) == Stacked(0) + CalcWork(BITS) && Stacked(2) == Stacked(1) + CalcWork(BITS);
  }

  /** Of any node on this tree: the fork is one below the tip. */
  lemma {:induction false} ForksJustBelow(c: Crypto, k: Start, v: View)
    requires Friendly(c) && ViewOk(c, Net(c, k), Forked(c, k), v) && v.tip == Id(c, Tip(c, k))
    ensures v.height == 2 && v.work == Stacked(2) && ForkHeight(Forked(c, k), v, Id(c, Beside(c, k))) == 1
  {
    hide TreeOk, Good, CoinsAt, Friendly, Linked, Plain, Genesis, CalcWork, Forked, BytesLess, Net, Tip, Beside, OnMain, OffMain, ForkHeight,
         MainOk, HeightsOk, Stacked;
    ForkedIsTree(c, k);
    var ix := Forked(c, k);
    ViewFacts(c, Net(c, k), ix, v);
    MainAt(ix, v.at, v.height, v.tip, 2);
    MainAt(ix, v.at, v.height, v.tip, 1);
    OnMainIff(ix, v, Id(c, Beside(c, k)));
    OnMainIff(ix, v, Id(c, F(c, k)));
    OffMainAt(ix, v, Id(c, Beside(c, k)));
    NotOff(v.at, 1);
    ForkJustBelow(ix, v, Id(c, Beside(c, k)));
  }

  lemma {:induction false} NotOff(at: map<nat, Hash>, i: nat)
    requires i in at
    ensures !OffMain(at, at[i])
  {
  }

  lemma {:induction false} OffMainAt(ix: Index, v: View, x: Hash)
    requires MainOk(ix, v.at, v.height, v.tip) && x in ix && ix[x].height <= v.height && v.at[ix[x].height] != x
    ensures OffMain(v.at, x)
  {
  }

  lemma {:induction false} ForkJustBelow(ix: Index, v: View, h: Hash)
    requires Linked(ix) && h in ix && ix[h].height > 0 && Prev(ix[h]) in ix
    requires !OnMain(v.heightOf, v.at, h) && OnMain(v.heightOf, v.at, Prev(ix[h]))
    ensures ForkHeight(ix, v, h) == ix[Prev(ix[h])].height
  {
    hide Linked, OnMain;
    assert MainAncestor(ix, v.heightOf, v.at, Prev(ix[h])) == Prev(ix[h]);
  }

  /** A child of the block beside the tip. */
  lemma {:induction false} NephewDue(c: Crypto, k: Start, undo: map<Hash, Undo>, v: View, time: u32, now: u32)
    requires Friendly(c) && ViewOk(c, Net(c, k), Forked(c, k), v) && v.tip == Id(c, Tip(c, k)) && k + 3 < time <= now
    ensures var x, ix := Plain(c, k, Id(c, Beside(c, k)), 3, time), Forked(c, k);
            && Good(c, Net(c, k), Child(c, ix, x), Id(c, x)) && x.header.timestamp == time && x.header.prevBlock == Id(c, Beside(c, k))
            && Due(c, Net(c, k), ix, undo, v, Id(c, x), x, now) == if UndoMissing(v.at, undo, 1) then ReorgFailed else Reorganized
  {
    hide TreeOk, Good, Friendly, Linked, Plain, Genesis, CalcWork, Forked, BytesLess, Tip, Beside, ForkHeight, Stacked, ViewOk, MayGrow, Due,
         UndoMissing, Child, Extends;
    ForkedIsTree(c, k);
    ForksJustBelow(c, k, v);
    HasNext(c, k, Forked(c, k), Beside(c, k), 2, time);
    BesideDue(c, k, Forked(c, k), undo, v, Plain(c, k, Id(c, Beside(c, k)), 3, time), 3, now);
  }

  // ------------------------------------------------------------------------ undo data was lost

  /** A valid branch that beats the tip is refused, because the tip cannot be disconnected. */
  ghost predicate LostForUndo(c: Crypto, p: ChainParams, d: Disk, v: View, x: Block, now: u32) {
    && Running(c, p, d, v) && x.header.prevBlock in v.heightOf && v.tip !in d.undo
    && Good(c, p, d.index[c.blockId(x.header) := ChildRec(d.index, x)], c.blockId(x.header))
    && Due(c, p, d.index, d.undo, v, c.blockId(x.header), x, now) == ReorgFailed
  }

  lemma {:induction false} UndoLossBlocks(c: Crypto, k: Start) returns (d: Disk, v: View, x: Block)
    requires Friendly(c)
    ensures LostForUndo(c, Net(c, k), d, v, x, k + 4)
  {
    hide TreeOk, Good, Friendly, Linked, Plain, Genesis, CalcWork, Forked, BytesLess, Tip, Beside, Stacked, ViewOk, Due, Net, UndoMissing,
         EnvOk, Recoverable, BestOf;
    ForkedIsTree(c, k);
    TipIsBest(c, k);
    d, v := RunningOn(c, k, Forked(c, k), map[], Id(c, Tip(c, k)));
    x := Plain(c, k, Id(c, Beside(c, k)), 3, k + 4);
    NephewDue(c, k, map[], v, k + 4, k + 4);
    TipHasNoUndo(c, k, v);
  }

  lemma {:induction false} TipHasNoUndo(c: Crypto, k: Start, v: View)
    requires Friendly(c) && ViewOk(c, Net(c, k), Forked(c, k), v) && v.tip == Id(c, Tip(c, k))
    ensures UndoMissing(v.at, map[], 1)
  {
    hide Good, CoinsAt, Friendly, Net, Forked, Tip, HeightsOk;
    ForksJustBelow(c, k, v);
    assert 2 in v.at;
  }

  // ------------------------------------------------------------------------ siblings in the pool

  /**
   * Two valid orphans wait for one parent. Both beat the tip, and the one with smaller hash bytes makes the node switch;
   * the sweep ends with an empty pool, and the other was never looked at.
   */
  ghost predicate SiblingLost(c: Crypto, p: ChainParams, d: Disk, v: View, now: u32, parent: Hash, a: Block, b: Block, rounds: seq<Round>) {
    var ida, idb := c.blockId(a.header), c.blockId(b.header);
    var pool := map[ida := a, idb := b];
    && Running(c, p, d, v) && parent in v.heightOf && BytesLess(ida, idb) && a.header.prevBlock == parent == b.header.prevBlock
    && Good(c, p, d.index[ida := ChildRec(d.index, a)], ida) && Good(c, p, d.index[idb := ChildRec(d.index, b)], idb)
    && Due(c, p, d.index, d.undo, v, ida, a, now) == Reorganized
    && Swept(pool, parent, rounds, map[]) && EventsOk(c, p, [d], 0, (_: Hash) => now, Flat(rounds))
    && !WasHandled(pool, Flat(rounds), idb) && PassedOver(pool, Flat(rounds), idb)
  }

  ghost function TwoRounds(c: Crypto, parent: Hash, a: Block): seq<Round> {
    [Round(parent, [Event(Id(c, a), a, 0, Reorganized)]), Round(Id(c, a), [])]
  }

  /** The sweep of two siblings of which the first reorganises the chain. */
  lemma {:induction false} SweepOfTwo(c: Crypto, parent: Hash, a: Block, b: Block)
    requires BytesLess(Id(c, a), Id(c, b)) && a.header.prevBlock == parent == b.header.prevBlock && Id(c, a) != Id(c, b) && parent != Id(c, a)
    ensures var pool, rounds := map[Id(c, a) := a, Id(c, b) := b], TwoRounds(c, parent, a);
            && Swept(pool, parent, rounds, map[]) && Flat(rounds) == [Event(Id(c, a), a, 0, Reorganized)]
            && !WasHandled(pool, Flat(rounds), Id(c, b)) && PassedOver(pool, Flat(rounds), Id(c, b))
  {
    hide BytesLess, Unsettled, RoundOk, Played, Parents, Flat, QueueAt, QueueThrough, WasHandled, PassedOver;
    var pool, rounds, e := map[Id(c, a) := a, Id(c, b) := b], TwoRounds(c, parent, a), Event(Id(c, a), a, 0, Reorganized);
    var r1, r2 := rounds[0], rounds[1];
    TwoListed(c, parent, a, b);
    NotPlayed(pool, parent);
    FirstRound(c, parent, a, b);
    NextRound(pool, [parent], [], r1);
    assert [] + [r1] == [r1] && [parent][1..] == [] && {} + {parent} == {parent} && [] + [e] == [e];
    SecondRound(pool, parent, e);
    NextRound(pool, [parent], [r1], r2);
    assert [r1] + [r2] == rounds && [e] + [] == [e] && [e.hash][1..] == [];
    OneOfTwo(pool, e, Id(c, b));
  }

  lemma {:induction false} NotPlayed(pool: map<Hash, Block>, parent: Hash)
    ensures Played(pool, [parent], []) && Parents([]) == {} && Flat([]) == [] && QueueAt([parent], []) == [parent] && Unsettled(pool, {}) == pool
  {
    SettleOne(pool, {}, parent);
  }

  lemma {:induction false} FirstRound(c: Crypto, parent: Hash, a: Block, b: Block)
    requires BytesLess(Id(c, a), Id(c, b)) && a.header.prevBlock == parent == b.header.prevBlock && Id(c, a) != Id(c, b)
    ensures var e := Event(Id(c, a), a, 0, Reorganized);
            && RoundOk(map[Id(c, a) := a, Id(c, b) := b], [parent], Round(parent, [e])) && QueueThrough([], [e]) == [e.hash]
  {
    hide BytesLess, IsListing;
    var es := [Event(Id(c, a), a, 0, Reorganized)];
    TwoListed(c, parent, a, b);
    assert Handling([OrphanEntry(Id(c, a), a), OrphanEntry(Id(c, b), b)], es) && Resets(es);
  }

  lemma {:induction false} SecondRound(pool: map<Hash, Block>, parent: Hash, e: Event)
    requires Unsettled(pool, {parent}) == map[]
    ensures RoundOk(Unsettled(pool, {parent}), [e.hash], Round(e.hash, [])) && QueueThrough([], []) == []
    ensures Others(map[], e.hash) == map[]
  {
    hide IsListing;
    NoneListed(map[], e.hash);
    assert Handling([], []);
  }

  lemma {:induction false} OneOfTwo(pool: map<Hash, Block>, e: Event, h: Hash)
    requires h in pool && e.hash != h && e.outcome.Reorganized? && e.block.header.prevBlock == pool[h].header.prevBlock && BytesLess(e.hash, h)
    ensures !WasHandled(pool, [e], h) && PassedOver(pool, [e], h)
  {
    hide BytesLess;
    assert e in [e];
  }

  lemma {:induction false} TwoListed(c: Crypto, parent: Hash, a: Block, b: Block)
    requires BytesLess(Id(c, a), Id(c, b)) && a.header.prevBlock == parent == b.header.prevBlock
    ensures var pool := map[Id(c, a) := a, Id(c, b) := b];
            && (Id(c, a) != Id(c, b) ==> IsListing([OrphanEntry(Id(c, a), a), OrphanEntry(Id(c, b), b)], pool, parent))
            && Unsettled(pool, {parent}) == map[]
  {
    hide BytesLess;
    var entries := [OrphanEntry(Id(c, a), a), OrphanEntry(Id(c, b), b)];
    assert EntryHashes(entries) == [Id(c, a), Id(c, b)];
    forall h ensures h in HashSet([Id(c, a), Id(c, b)]) <==> h == Id(c, a) || h == Id(c, b) {
      assert [Id(c, a), Id(c, b)][0] == Id(c, a) && [Id(c, a), Id(c, b)][1] == Id(c, b);
    }
  }

  lemma {:induction false} NoneListed(pool: map<Hash, Block>, parent: Hash)
    requires pool == map[]
    ensures IsListing([], pool, parent)
  {
    assert EntryHashes([]) == [];
  }

  lemma {:induction false} SecondSiblingIsLost(c: Crypto, k: Start)
    returns (d: Disk, v: View, a: Block, b: Block, rounds: seq<Round>)
    requires Friendly(c)
    ensures SiblingLost(c, Net(c, k), d, v, k + 5, Id(c, Beside(c, k)), a, b, rounds)
  {
    hide TreeOk, Good, Friendly, Linked, Plain, Genesis, CalcWork, Forked, BytesLess, Tip, Beside, Stacked, ViewOk, Due, Net, UndoMissing,
         EnvOk, Recoverable, BestOf, UndoOk, Swept, Flat, WasHandled, PassedOver, TwoRounds, DueAt;
    ForkedIsTree(c, k);
    TipIsBest(c, k);
    var ix, parent := Forked(c, k), Id(c, Beside(c, k));
    var undo := TipUndo(c, k);
    d, v := RunningOn(c, k, ix, undo, Id(c, Tip(c, k)));
    NothingLacks(c, k, undo, v);
    var x, y := Plain(c, k, parent, 3, k + 4), Plain(c, k, parent, 3, k + 5);
    NephewDue(c, k, undo, v, k + 4, k + 5);
    NephewDue(c, k, undo, v, k + 5, k + 5);
    a, b := Low(c, x, y), High(c, x, y);
    LowIsLess(c, x, y);
    LaterThan(c, Beside(c, k), a);
    rounds := TwoRounds(c, parent, a);
    SweepOfTwo(c, parent, a, b);
    DueOn(c, Net(c, k), d, v, Id(c, a), a, k + 5);
  }

  lemma {:induction false} LaterThan(c: Crypto, a: Block, b: Block)
    requires Friendly(c) && a.header.timestamp < b.header.timestamp
    ensures Id(c, a) != Id(c, b)
  {
    hide Friendly;
    DifferentTimes(c, a, b);
  }

  lemma {:induction false} DueOn(c: Crypto, p: ChainParams, d: Disk, v: View, h: Hash, b: Block, now: u32)
    requires ViewOk(c, p, d.index, v) && d.tip == Some(v.tip)
    ensures DueAt(c, p, d, h, b, now, Due(c, p, d.index, d.undo, v, h, b, now))
  {
    hide ViewOk, Due;
  }

  lemma {:induction false} TipUndo(c: Crypto, k: Start) returns (undo: map<Hash, Undo>)
    requires Friendly(c)
    ensures UndoOk(c, Net(c, k), Forked(c, k), undo) && Id(c, Tip(c, k)) in undo
  {
    hide TreeOk, Good, Friendly, Plain, Genesis, CalcWork, Forked, BytesLess, Tip, Beside, Net, UndoAt, Linked;
    ForkedIsTree(c, k);
    undo := map[][Id(c, Tip(c, k)) := UndoAt(c, Forked(c, k), Id(c, Tip(c, k)))];
    UndoAdd(c, Net(c, k), Forked(c, k), map[], Id(c, Tip(c, k)));
  }

  lemma {:induction false} NothingLacks(c: Crypto, k: Start, undo: map<Hash, Undo>, v: View)
    requires Friendly(c) && ViewOk(c, Net(c, k), Forked(c, k), v) && v.tip == Id(c, Tip(c, k)) && Id(c, Tip(c, k)) in undo
    ensures !UndoMissing(v.at, undo, 1)
  {
    hide Good, CoinsAt, Friendly, Net, Forked, Tip, HeightsOk, Stacked, ForkHeight, Beside;
    ForksJustBelow(c, k, v);
    assert forall i :: i in v.at && i > 1 ==> i == 2;
  }

  // ------------------------------------------------------------------------ the depth limit

  function A1(c: Crypto, k: Start): Block { Plain(c, k, Id(c, Genesis(c, k)), 1, k + 1) }

  function B1(c: Crypto, k: Start): Block { Plain(c, k, Id(c, Genesis(c, k)), 1, k + 2) }

  function A2(c: Crypto, k: Start): Block { Plain(c, k, Id(c, A1(c, k)), 2, k + 3) }

  function B2(c: Crypto, k: Start): Block { Plain(c, k, Id(c, B1(c, k)), 2, k + 4) }

  ghost function Split(c: Crypto, k: Start): Index {
    Child(c, Child(c, Child(c, Child(c, Origin(c, k), A1(c, k)), B1(c, k)), A2(c, k)), B2(c, k))
  }

  lemma {:induction false} SplitIsTree(c: Crypto, k: Start)
    requires Friendly(c)
    ensures var ix := Split(c, k);
            && TreeOk(c, Net(c, k), ix) && Linked(ix) && Has(c, k, ix, Genesis(c, k), 0) && Has(c, k, ix, A1(c, k), 1)
            && Has(c, k, ix, B1(c, k), 1) && Has(c, k, ix, A2(c, k), 2) && Has(c, k, ix, B2(c, k), 2)
            && ix.Keys == {Id(c, Genesis(c, k)), Id(c, A1(c, k)), Id(c, B1(c, k)), Id(c, A2(c, k)), Id(c, B2(c, k))}
    ensures A1(c, k).header.prevBlock == Id(c, Genesis(c, k)) == B1(c, k).header.prevBlock && Id(c, A1(c, k)) != Id(c, B1(c, k))
    ensures A2(c, k).header.prevBlock == Id(c, A1(c, k)) && B2(c, k).header.prevBlock == Id(c, B1(c, k))
    ensures A2(c, k).header.timestamp == k + 3 && B2(c, k).header.timestamp == k + 4
  {
    hide TreeOk, Has, Friendly, MayGrow, Linked, Extends, Plain, Genesis, Origin, Child, Net;
    HasOrigin(c, k);
    var ix0 := Origin(c, k);
    HasNext(c, k, ix0, Genesis(c, k), 0, k + 1);
    var ix1 := Child(c, ix0, A1(c, k));
    HasStays(c, k, ix0, ix1, Genesis(c, k), 0);
    HasNext(c, k, ix1, Genesis(c, k), 0, k + 2);
    var ix2 := Child(c, ix1, B1(c, k));
    HasStays(c, k, ix1, ix2, Genesis(c, k), 0);
    HasStays(c, k, ix1, ix2, A1(c, k), 1);
    HasNext(c, k, ix2, A1(c, k), 1, k + 3);
    var ix3 := Child(c, ix2, A2(c, k));
    HasStays(c, k, ix2, ix3, Genesis(c, k), 0);
    HasStays(c, k, ix2, ix3, A1(c, k), 1);
    HasStays(c, k, ix2, ix3, B1(c, k), 1);
    HasNext(c, k, ix3, B1(c, k), 1, k + 4);
    var ix4 := Child(c, ix3, B2(c, k));
    HasStays(c, k, ix3, ix4, Genesis(c, k), 0);
    HasStays(c, k, ix3, ix4, A1(c, k), 1);
    HasStays(c, k, ix3, ix4, B1(c, k), 1);
    HasStays(c, k, ix3, ix4, A2(c, k), 2);
    LaterThan(c, A1(c, k), B1(c, k));
  }

  lemma {:induction false} LowIsBest(c: Crypto, k: Start)
    requires Friendly(c)
    ensures var low, high := Low(c, A2(c, k), B2(c, k)), High(c, A2(c, k), B2(c, k));
            Id(c, low) != Id(c, high) && BestOf(Split(c, k), Split(c, k).Keys, Id(c, low))
  {
    hide TreeOk, Good, Friendly, Linked, Plain, Genesis, CalcWork, Split, BytesLess, Net, A1, B1, A2, B2;
    SplitIsTree(c, k);
    LowIsLess(c, A2(c, k), B2(c, k));
    BlocksHaveWork();
    assert Stacked(1) == Stacked(0) + CalcWork(BITS) && Stacked(2) == Stacked(1) + CalcWork(BITS);
  }

  lemma {:induction false} ForkTwoBelow(ix: Index, v: View, h: Hash)
    requires Linked(ix) && h in ix && Prev(ix[h]) in ix && ix[h].height == 2 && ix[Prev(ix[h])].height == 1 && Prev(ix[Prev(ix[h])]) in ix
    requires !OnMain(v.heightOf, v.at, h) && !OnMain(v.heightOf, v.at, Prev(ix[h])) && OnMain(v.heightOf, v.at, Prev(ix[Prev(ix[h])]))
    ensures ForkHeight(ix, v, h) == ix[Prev(ix[Prev(ix[h])])].height
  {
    hide Linked, OnMain;
    var m := Prev(ix[h]);
    assert MainAncestor(ix, v.heightOf, v.at, Prev(ix[m])) == Prev(ix[m]);
    assert MainAncestor(ix, v.heightOf, v.at, m) == Prev(ix[m]);
  }

  /** Two chains of height two from genesis: any node on one of them sees the other fork at genesis. */
  lemma {:induction false} ForksAtGenesis(c: Crypto, k: Start, v: View, tip: Block, side: Block)
    requires Friendly(c) && ViewOk(c, Net(c, k), Split(c, k), v) && v.tip == Id(c, tip) && Id(c, tip) != Id(c, side)
    requires (tip == A2(c, k) && side == B2(c, k)) || (tip == B2(c, k) && side == A2(c, k))
    ensures v.height == 2 && v.work == Stacked(2) && ForkHeight(Split(c, k), v, Id(c, side)) == 0
  {
    hide TreeOk, Good, CoinsAt, Friendly, Linked, Plain, Genesis, CalcWork, Split, Net, OnMain, OffMain, ForkHeight, MainOk, HeightsOk, Stacked,
         A1, B1, A2, B2;
    SplitIsTree(c, k);
    var ix := Split(c, k);
    ViewFacts(c, Net(c, k), ix, v);
    MainAt(ix, v.at, v.height, v.tip, 2);
    MainAt(ix, v.at, v.height, v.tip, 1);
    MainAt(ix, v.at, v.height, v.tip, 0);
    var m := Prev(ix[Id(c, side)]);
    OnMainIff(ix, v, Id(c, side));
    OnMainIff(ix, v, m);
    OnMainIff(ix, v, v.at[0]);
    OffMainAt(ix, v, Id(c, side));
    OffMainAt(ix, v, m);
    NotOff(v.at, 0);
    ForkTwoBelow(ix, v, Id(c, side));
  }

  /** A valid branch that beats the tip is kept beside the chain, because it forks too far below. */
  ghost predicate RefusedAsDeep(c: Crypto, p: ChainParams, d: Disk, v: View, x: Block, now: u32) {
    && Running(c, p, d, v) && x.header.prevBlock in v.heightOf
    && Good(c, p, d.index[c.blockId(x.header) := ChildRec(d.index, x)], c.blockId(x.header))
    && Due(c, p, d.index, d.undo, v, c.blockId(x.header), x, now) == DeepSideChain
  }

  lemma {:induction false} DepthLimitRefuses(c: Crypto, k: Start) returns (d: Disk, v: View, x: Block)
    requires Friendly(c)
    ensures RefusedAsDeep(c, Net(c, k), d, v, x, k + 5)
  {
    hide TreeOk, Good, Friendly, Linked, Plain, Genesis, CalcWork, Split, BytesLess, Stacked, ViewOk, Due, EnvOk, Recoverable, BestOf, ForkHeight,
         A1, B1, A2, B2, MayGrow;
    SplitIsTree(c, k);
    LowIsBest(c, k);
    var ix, tip, side := Split(c, k), Low(c, A2(c, k), B2(c, k)), High(c, A2(c, k), B2(c, k));
    d, v := RunningOn(c, k, ix, map[], Id(c, tip));
    ForksAtGenesis(c, k, v, tip, side);
    x := Plain(c, k, Id(c, side), 3, k + 5);
    HasNext(c, k, ix, side, 2, k + 5);
    BesideDue(c, k, ix, map[], v, x, 3, k + 5);
  }

  /** All three can happen. */
  lemma {:induction false} CasesExist()
    ensures exists c, p, d, v, x, now :: LostForUndo(c, p, d, v, x, now)
    ensures exists c, p, d, v, x, now :: RefusedAsDeep(c, p, d, v, x, now)
    ensures exists c, p, d, v, now, parent, a, b, rounds :: SiblingLost(c, p, d, v, now, parent, a, b, rounds)
  {
    hide Friendly, LostForUndo, RefusedAsDeep, SiblingLost, Net, Beside;
    var c := IdealCrypto((_, _, _, _) => true);
    FriendlyExists();
    var d, v, x := UndoLossBlocks(c, 0);
    var d', v', x' := DepthLimitRefuses(c, 0);
    var d'', v'', a, b, rounds := SecondSiblingIsLost(c, 0);
  }
}
