/** The chain manager (internal/chain/chain.go): extend, side chain, reorganise, orphans. */
module Chain {
  import opened Types
  import opened Params
  import opened Utxo
  import opened TxValidation
  import opened Target
  import opened BlockRules
  import opened History
  import opened Headers
  import opened BlockTree
  import opened ChainState
  import opened ForkChoice
  import opened Decision
  import opened OrphanQueue
  import opened Sweep

  /** A branch from just above `fork` up to its first element, newest first. */
  ghost predicate BranchOk(ix: Index, branch: seq<Hash>, fork: Hash) {
    && branch != [] && fork in ix
    && (forall i :: 0 <= i < |branch| ==>
          branch[i] in ix && ix[branch[i]].height == ix[fork].height + |branch| - i)
    && (forall i :: 0 <= i < |branch| ==>
          Prev(ix[branch[i]]) == if i + 1 < |branch| then branch[i + 1] else fork)
  }

  lemma {:induction false} BranchAt(ix: Index, branch: seq<Hash>, fork: Hash, i: nat)
    requires BranchOk(ix, branch, fork) && i <= |branch|
    ensures branch != [] && fork in ix
    ensures i < |branch| ==>
              && branch[i] in ix && ix[branch[i]].height > ix[fork].height
              && var below := if i + 1 < |branch| then branch[i + 1] else fork;
                 Prev(ix[branch[i]]) == below && below in ix && ix[branch[i]].height == ix[below].height + 1
  {
  }

  /** Blocks ever admitted include everything known in memory, and are closed under parents. */
  ghost predicate AdmittedOk(ix: Index, heightOf: map<Hash, nat>, admitted: set<Hash>) {
    heightOf.Keys <= admitted && ParentClosed(ix, admitted)
  }

  ghost predicate ParentClosed(ix: Index, admitted: set<Hash>) {
    && admitted <= ix.Keys
    && (forall h {:trigger ParentIn(ix, h, admitted)} :: h in admitted ==> ParentIn(ix, h, admitted))
  }

  ghost predicate ParentIn(ix: Index, h: Hash, admitted: set<Hash>)
    requires h in ix
  {
    ix[h].height > 0 ==> Prev(ix[h]) in admitted
  }

  lemma {:induction false} AdmitOne(c: Crypto, p: ChainParams, ix: Index, admitted: set<Hash>, h: Hash, r: Rec)
    requires TreeOk(c, p, ix) && Admissible(c, p, ix, h, r) && ParentClosed(ix, admitted) && Prev(r) in admitted
    requires Extends(ix, ix[h := r])
    ensures ParentClosed(ix[h := r], admitted + {h})
  {
    hide TreeOk, StructureOk, MayFollow;
    var ix', all := ix[h := r], admitted + {h};
    forall k {:trigger ParentIn(ix', k, all)} | k in all ensures ParentIn(ix', k, all) {
      if k != h { assert ParentIn(ix, k, admitted); }
    }
  }

  lemma {:induction false} ParentClosedStable(ix: Index, ix': Index, admitted: set<Hash>)
    requires ParentClosed(ix, admitted) && Extends(ix, ix')
    ensures ParentClosed(ix', admitted)
  {
    forall k {:trigger ParentIn(ix', k, admitted)} | k in admitted ensures ParentIn(ix', k, admitted) {
      assert ParentIn(ix, k, admitted);
    }
  }

  /** The main chain `at` keeps entries of `at0` and is otherwise made of the branch. */
  ghost predicate Grafted(at: map<nat, Hash>, at0: map<nat, Hash>, branch: seq<Hash>) {
    forall i :: i in at ==> at[i] in HashSet(branch) || (i in at0 && at[i] == at0[i])
  }

  lemma {:induction false} GraftHasUndo(at: map<nat, Hash>, at0: map<nat, Hash>, branch: seq<Hash>,
                                        undo: map<Hash, Undo>, undo0: map<Hash, Undo>)
    requires Grafted(at, at0, branch) && undo.Keys == undo0.Keys + HashSet(branch)
    ensures MainHasUndo(at0, undo0) ==> MainHasUndo(at, undo)
  {
  }

  /** The blocks of the main chain above a height. */
  ghost function MainAbove(at: map<nat, Hash>, f: nat): set<Hash> {
    set i | i in at && i > f :: at[i]
  }

  lemma {:induction false} NoneAbove(ix: Index, at: map<nat, Hash>, n: nat, tip: Hash)
    requires MainOk(ix, at, n, tip)
    ensures MainAbove(at, n) == {}
  {
  }

  lemma {:induction false} OneMoreAbove(at: map<nat, Hash>, n: nat)
    requires n in at && n > 0
    ensures MainAbove(at, n - 1) == MainAbove(at, n) + {at[n]}
  {
  }

  /** The main chain above a height is the way to its tip above that height. */
  lemma {:induction false} AboveIsWay(c: Crypto, p: ChainParams, ix: Index, at: map<nat, Hash>, n: nat, tip: Hash, f: nat)
    requires TreeOk(c, p, ix) && Linked(ix) && MainOk(ix, at, n, tip) && tip in ix
    ensures MainAbove(at, f) == WayAbove(ix, tip, f)
  {
    hide Linked, TreeOk;
    forall x ensures x in MainAbove(at, f) <==> x in WayAbove(ix, tip, f) {
      if x in MainAbove(at, f) {
        var i :| i in at && i > f && at[i] == x;
        MainPrefix(ix, at, n, tip, i);
      } else if x in WayAbove(ix, tip, f) {
        var i := ix[x].height;
        assert |Path(ix, x)| == i + 1 && |Path(ix, tip)| == n + 1;
        MainPrefix(ix, at, n, tip, i);
        SamePath(c, p, ix, x, at[i]);
      }
    }
  }

  lemma {:induction false} SamePath(c: Crypto, p: ChainParams, ix: Index, x: Hash, y: Hash)
    requires TreeOk(c, p, ix) && Linked(ix) && x in ix && y in ix && Path(ix, x) == Path(ix, y)
    ensures x == y
  {
    assert LinkedAt(ix, x) && NodeOk(c, p, ix, x) && LinkedAt(ix, y) && NodeOk(c, p, ix, y);
    assert Path(ix, x)[|Path(ix, x)| - 1] == ix[x].block && Path(ix, y)[|Path(ix, y)| - 1] == ix[y].block;
  }

  /** Those between two heights. */
  ghost function MainBetween(at: map<nat, Hash>, f: nat, h: nat): set<Hash> {
    set i | i in at && f < i < h :: at[i]
  }

  lemma {:induction false} NoneBetween(at: map<nat, Hash>, f: nat)
    ensures MainBetween(at, f, f + 1) == {}
  {
  }

  lemma {:induction false} BetweenGrows(at: map<nat, Hash>, f: nat, h: nat)
    requires h in at && f < h
    ensures MainBetween(at, f, h + 1) == MainBetween(at, f, h) + {at[h]}
  {
  }

  lemma {:induction false} AllBetween(at: map<nat, Hash>, f: nat, n: nat)
    requires forall i: nat :: i in at <==> i <= n
    ensures MainBetween(at, f, n + 1) == MainAbove(at, f)
  {
  }

  /** Cut back to a height, the known heights still cover the main chain. */
  lemma {:induction false} HeightsBelow(ix: Index, heightOf: map<Hash, nat>, at: map<nat, Hash>, n: nat, tip: Hash,
                                        at': map<nat, Hash>, f: nat)
    requires MainOk(ix, at, n, tip) && HeightsOk(ix, heightOf, at, n) && f <= n
    requires (forall i: nat :: i in at' <==> i <= f) && (forall i: nat :: i <= f ==> at'[i] == at[i])
    ensures HeightsOk(ix, heightOf - MainAbove(at, f), at', f) && Grafted(at', at, [])
  {
    forall i: nat | i in at' ensures at'[i] in heightOf && at'[i] !in MainAbove(at, f) {
      MainAt(ix, at, n, tip, i);
      if at'[i] in MainAbove(at, f) {
        var j :| j in at && j > f && at[j] == at'[i];
        MainAt(ix, at, n, tip, j);
      }
    }
  }

  lemma {:induction false} GraftGrows(at: map<nat, Hash>, at0: map<nat, Hash>, branch: seq<Hash>, n: nat, i: nat)
    requires Grafted(at, at0, branch) && i < |branch|
    ensures Grafted(at[n := branch[i]], at0, branch)
  {
  }

  lemma {:induction false} GraftTwice(at: map<nat, Hash>, cut: map<nat, Hash>, at0: map<nat, Hash>, branch: seq<Hash>)
    requires Grafted(cut, at0, []) && Grafted(at, cut, branch)
    ensures Grafted(at, at0, branch)
  {
  }

  lemma {:induction false} GraftNothing(at: map<nat, Hash>, branch: seq<Hash>)
    ensures Grafted(at, at, branch)
  {
  }

  lemma {:induction false} SuffixSet(xs: seq<Hash>, i: nat)
    requires i <= |xs|
    ensures HashSet(xs[i..]) <= HashSet(xs) && HashSet(xs[0..]) == HashSet(xs)
  {
    assert xs[0..] == xs;
  }

  /** Both indexes after the branch was connected from its root up to position `i`. */
  ghost predicate ConnectedFrom(heightOf0: map<Hash, nat>, at0: map<nat, Hash>, heightOf: map<Hash, nat>, at: map<nat, Hash>,
                                branch: seq<Hash>, i: nat, f: nat) {
    && i <= |branch| && heightOf.Keys == heightOf0.Keys + HashSet(branch[i..])
    && MainAbove(at, f) == HashSet(branch[i..]) && Grafted(at, at0, branch)
  }

  lemma {:induction false} NothingConnected(ix: Index, heightOf: map<Hash, nat>, at: map<nat, Hash>, branch: seq<Hash>, f: nat, fork: Hash)
    requires MainOk(ix, at, f, fork)
    ensures ConnectedFrom(heightOf, at, heightOf, at, branch, |branch|, f)
  {
    hide MainAbove, HashSet, Grafted;
    AboveGrows(ix, at, f, fork, f, fork);
    HashSetGrows([], []);
    GraftNothing(at, branch);
    assert branch[|branch|..] == [];
  }

  lemma {:induction false} ConnectedNext(ix: Index, heightOf0: map<Hash, nat>, at0: map<nat, Hash>, heightOf: map<Hash, nat>,
                                         at: map<nat, Hash>, branch: seq<Hash>, i: nat, f: nat, below: Hash)
    requires i < |branch| && ConnectedFrom(heightOf0, at0, heightOf, at, branch, i + 1, f)
    requires below in ix && f <= ix[below].height && MainOk(ix, at, ix[below].height, below)
    ensures ConnectedFrom(heightOf0, at0, heightOf[branch[i] := ix[below].height + 1], at[ix[below].height + 1 := branch[i]], branch, i, f)
  {
    hide MainAbove, HashSet, Grafted, MainOk;
    AboveGrows(ix, at, ix[below].height, below, f, branch[i]);
    SuffixGrows(branch, i);
    GraftGrows(at, at0, branch, ix[below].height + 1, i);
  }

  lemma {:induction false} AllConnected(heightOf0: map<Hash, nat>, at0: map<nat, Hash>, heightOf: map<Hash, nat>, at: map<nat, Hash>,
                                        branch: seq<Hash>, i: nat, f: nat)
    requires ConnectedFrom(heightOf0, at0, heightOf, at, branch, i, f)
    ensures heightOf.Keys <= heightOf0.Keys + HashSet(branch)
    ensures i == 0 ==> heightOf.Keys == heightOf0.Keys + HashSet(branch) && MainAbove(at, f) == HashSet(branch) && Grafted(at, at0, branch)
  {
    hide MainAbove, HashSet, Grafted;
    SuffixSet(branch, i);
  }

  /** The known heights after a switch: what was disconnected is forgotten, what was connected is known, no more. */
  ghost predicate Rehung(heightOf: map<Hash, nat>, at: map<nat, Hash>, heightOf': map<Hash, nat>, at': map<nat, Hash>, f: nat) {
    heightOf'.Keys == (heightOf.Keys - MainAbove(at, f)) + MainAbove(at', f)
  }

  lemma {:induction false} AboveGrows(ix: Index, at: map<nat, Hash>, n: nat, tip: Hash, f: nat, h: Hash)
    requires MainOk(ix, at, n, tip) && f <= n
    ensures MainAbove(at[n + 1 := h], f) == MainAbove(at, f) + {h} && MainAbove(at, n) == {}
  {
    var at' := at[n + 1 := h];
    assert at'[n + 1] == h;
    forall x | x in MainAbove(at, f) ensures x in MainAbove(at', f) {
      var i :| i in at && i > f && at[i] == x;
      assert at'[i] == x;
    }
  }

  /** Some stored block does not lead to a validated path. */
  ghost predicate HasBad(c: Crypto, p: ChainParams, ix: Index) {
    exists h :: h in ix && !Good(c, p, ix, h)
  }

  lemma {:induction false} BadStays(c: Crypto, p: ChainParams, ix: Index, ix': Index)
    requires Linked(ix) && Linked(ix') && Extends(ix, ix') && HasBad(c, p, ix)
    ensures HasBad(c, p, ix')
  {
    hide Linked, ChainOk;
    var h :| h in ix && !Good(c, p, ix, h);
    PathStable(ix, ix', h);
    assert h in ix' && !Good(c, p, ix', h);
  }

  /** Every stored block that was not admitted leads to no validated path. */
  ghost predicate OnlyBadLeft(c: Crypto, p: ChainParams, ix: Index, admitted: set<Hash>) {
    forall h :: h in ix && h !in admitted ==> !Good(c, p, ix, h)
  }

  lemma {:induction false} OnlyBadStays(c: Crypto, p: ChainParams, ix: Index, ix': Index, admitted: set<Hash>, admitted': set<Hash>, h: Hash)
    requires OnlyBadLeft(c, p, ix, admitted) && Linked(ix) && Linked(ix') && Extends(ix, ix') && admitted <= admitted'
    requires ix'.Keys <= ix.Keys + {h} && (h in ix' ==> h in admitted' || h in ix || !Good(c, p, ix', h))
    ensures OnlyBadLeft(c, p, ix', admitted')
  {
    hide ChainOk, Linked;
    forall x | x in ix' && x !in admitted' && x != h ensures !Good(c, p, ix', x) { PathStable(ix, ix', x); }
    if h in ix && h !in admitted' { PathStable(ix, ix', h); }
  }

  lemma {:induction false} DropOffMain(at: map<nat, Hash>, undo: map<Hash, Undo>, h: Hash)
    requires OffMain(at, h)
    ensures MainHasUndo(at, undo) ==> MainHasUndo(at, undo - {h})
  {
  }

  // --------------------------------------------------------------------------- a new store

  /** A store in which nothing happened yet, or that lost power before the first tip was written. */
  ghost predicate Unused(c: Crypto, p: ChainParams, d: Disk) {
    && d.tip.None? && d.best.None? && d.coins == map[] && d.undo == map[]
    && (d.index == map[] || d.index == map[GenesisHash(c, p) := GenesisRec(p)])
  }

  /** A store the node can open. */
  ghost predicate Startable(c: Crypto, p: ChainParams, d: Disk) {
    Unused(c, p, d) || Recoverable(c, p, d)
  }

  /** Whenever opening was interrupted before its last store call, it can be done again. */
  ghost predicate StartableBefore(c: Crypto, p: ChainParams, log: seq<Disk>) {
    forall i :: 0 <= i < |log| - 1 ==> Startable(c, p, log[i])
  }

  lemma {:induction false} EitherWay(c: Crypto, p: ChainParams, d: Disk)
    ensures d.tip.None? ==> !Recoverable(c, p, d)
    ensures d.tip.Some? ==> !Unused(c, p, d)
  {
  }

  /** The tree of the genesis block alone. */
  lemma {:induction false} GenesisTree(c: Crypto, p: ChainParams, ix: Index)
    requires EnvOk(c, p) && ix == map[GenesisHash(c, p) := GenesisRec(p)]
    ensures TreeOk(c, p, ix) && Path(ix, GenesisHash(c, p)) == [p.genesisBlock]
  {
    hide GenesisOk, Ideal, CalcWork;
    var h := GenesisHash(c, p);
    forall k {:trigger LinkedAt(ix, k)} | k in ix ensures LinkedAt(ix, k) {}
    assert HeadersOf([p.genesisBlock]) == [p.genesisBlock.header];
    forall k {:trigger NodeOk(c, p, ix, k)} | k in ix ensures LinkedAt(ix, k) && NodeOk(c, p, ix, k) {}
    forall k {:trigger RulesAt(p, ix, k)} | k in ix ensures RulesAt(p, ix, k) {}
  }

  /** Memory that holds the genesis block alone. */
  lemma {:induction false} GenesisView(c: Crypto, p: ChainParams, ix: Index, v: View)
    requires EnvOk(c, p) && ix == map[GenesisHash(c, p) := GenesisRec(p)]
    requires v == View(GenesisHash(c, p), 0, GenesisRec(p).work, map[GenesisHash(c, p) := 0], map[0 := GenesisHash(c, p)],
                       GenesisCoins(c.txId, p.genesisBlock.transactions))
    ensures TreeOk(c, p, ix) && UndoOk(c, p, ix, map[]) && ViewOk(c, p, ix, v)
  {
    hide EnvOk, TreeOk, CalcWork, GenesisCoins;
    GenesisTree(c, p, ix);
    TreeIsLinked(c, p, ix);
  }

  /** The walk back from `tip` at height `n` has listed everything above `h` and stands at `current`. */
  ghost predicate Walked(ix: Index, at: map<nat, Hash>, n: nat, tip: Hash, h: nat, current: Hash) {
    && h <= n && current in ix && ix[current].height == h
    && (forall i: nat :: i in at <==> h < i <= n)
    && (forall i: nat :: i in at ==> at[i] in ix && ix[at[i]].height == i)
    && (if h == n then current == tip else at[n] == tip && Prev(ix[at[h + 1]]) == current)
    && (forall i: nat {:trigger Prev(ix[at[i]])} :: h + 1 < i <= n ==> Prev(ix[at[i]]) == at[i - 1])
  }

  lemma {:induction false} WalkedOn(ix: Index, at: map<nat, Hash>, n: nat, tip: Hash, h: nat, current: Hash)
    requires Walked(ix, at, n, tip, h, current) && h > 0 && Prev(ix[current]) in ix && ix[Prev(ix[current])].height == h - 1
    ensures Walked(ix, at[h := current], n, tip, h - 1, Prev(ix[current]))
  {
  }

  lemma {:induction false} WalkedAll(ix: Index, at: map<nat, Hash>, n: nat, tip: Hash, current: Hash)
    requires Walked(ix, at, n, tip, 0, current)
    ensures MainOk(ix, at[0 := current], n, tip)
  {
  }

  ghost predicate Selectable(d: Disk) {
    d.tip.Some? && (d.best.Some? ==> d.best.value in d.index)
  }

  lemma {:induction false} StoredFacts(c: Crypto, p: ChainParams, d: Disk)
    requires Recoverable(c, p, d)
    ensures TreeOk(c, p, d.index) && UndoOk(c, p, d.index, d.undo) && Linked(d.index) && Selectable(d)
    ensures d.tip.value in d.index && Good(c, p, d.index, d.tip.value) && d.index[d.tip.value].height == d.tipHeight
    ensures d.best.Some? ==> Good(c, p, d.index, d.best.value) && d.coins == CoinsAt(c, d.index, d.best.value)
  {
    hide UndoOk;
    TreeIsLinked(c, p, d.index);
  }

  /** The chain a restart selects: the chainstate's block if it is higher than the tip, else the tip. */
  ghost function SelectedTip(d: Disk): Hash
    requires Selectable(d)
  {
    if d.best.Some? && d.best != d.tip && d.index[d.best.value].height > d.tipHeight then d.best.value else d.tip.value
  }

  lemma {:induction false} ReplayOfGenesis(c: Crypto, path: seq<Block>)
    requires path != []
    ensures Replay(c.txId, path[..1]) == GenesisCoins(c.txId, path[0].transactions)
  {
  }

  lemma {:induction false} GenesisRecord(c: Crypto, p: ChainParams, ix: Index)
    requires TreeOk(c, p, ix)
    ensures GenesisHash(c, p) in ix && ix[GenesisHash(c, p)].work == CalcWork(ix[GenesisHash(c, p)].block.header.bits)
  {
  }

  /** What ProcessBlock answers: refused outright, kept as an orphan, or handled because the parent is known. */
  datatype Verdict = AlreadyKnown | AlreadyOrphan | OrphanWithoutWork | NewOrphan | Handled(outcome: Outcome)

  /** The rounds of the sweep through the orphan pool, and what a crash may do. */
  datatype Trace = Trace(rounds: seq<Round>, safety: Safety)

  class Chain {
    const c: Crypto
    const p: ChainParams

    var tipHash: Hash
    var tipHeight: nat
    var tipWork: nat
    var heightByHash: map<Hash, nat>
    var hashByHeight: map<nat, Hash>
    var orphans: map<Hash, Block>
    var utxoSet: Coins

    var disk: Disk
    ghost var log: seq<Disk>          // the disk at the start and after every store call since
    ghost var admitted: set<Hash>     // every block ever put in heightByHash

    ghost function Memory(): View
      reads this
    {
      View(tipHash, tipHeight, tipWork, heightByHash, hashByHeight, utxoSet)
    }

    /** The tree and its undo data are sound, and memory is the replay of the path to the tip. */
    ghost predicate Consistent()
      reads this
    {
      && TreeOk(c, p, disk.index) && UndoOk(c, p, disk.index, disk.undo) && ViewOk(c, p, disk.index, Memory())
      && Ends()
    }

    /** The log ends with the present disk, whose tip is the one in memory. */
    ghost predicate Ends()
      reads this
    {
      log != [] && log[|log| - 1] == disk && disk.tip == Some(tipHash)
    }

    ghost predicate Valid()
      reads this
    {
      && EnvOk(c, p) && Consistent()
      && AdmittedOk(disk.index, heightByHash, admitted)
      && OrphansOk(c, orphans)
    }

    /** Disk equals memory. */
    ghost predicate InSync()
      reads this
    {
      disk.tip == Some(tipHash) && disk.tipHeight == tipHeight && disk.best == Some(tipHash) && disk.coins == utxoSet
    }

    // ---------------------------------------------------------------------------- starting

    /** Opens the store: an unused one gets the genesis block, any other is loaded, advanced or rebuilt. */
    constructor Open(crypto: Crypto, params: ChainParams, store: Disk)
      requires EnvOk(crypto, params) && Startable(crypto, params, store)
      ensures c == crypto && p == params && Valid() && orphans == map[]
      ensures disk.tip == Some(tipHash) && disk.best == Some(tipHash)
      ensures log[0] == store && StartableBefore(c, p, log) && (Startable(c, p, disk) <==> InSync())
      ensures Unused(crypto, params, store) ==>
                InSync() && BestTip() && Undoable() && tipHash == GenesisHash(c, p) && admitted == {tipHash}
                && disk.index == map[GenesisHash(c, p) := GenesisRec(p)]
      ensures OnlyBadLeft(c, p, disk.index, admitted)
      ensures Recoverable(crypto, params, store) ==>
                && Selectable(store) && tipHash == SelectedTip(store) && disk.index == store.index && disk.undo == store.undo
                && admitted == heightByHash.Keys == store.index.Keys
                && (InSync() <==> store.coins.Keys <= utxoSet.Keys)
    {
      c, p, disk, log := crypto, params, store, [store];
      tipHash, tipHeight, tipWork := [], 0, 0;
      heightByHash, hashByHeight, orphans, utxoSet, admitted := map[], map[], map[], map[], {};
      new;
      hide EnvOk, Recoverable, BestTip, Undoable, Valid, InSync, StartableBefore, SelectedTip, Good;
      EitherWay(c, p, disk);
      if disk.tip.None? { InitGenesis(); } else { Load(); }
      EitherWay(c, p, disk);
    }

    /** Stores the genesis block and starts from it. */
    method InitGenesis()
      requires EnvOk(c, p) && Unused(c, p, disk) && orphans == map[] && log == [disk]
      modifies this
      ensures Valid() && InSync() && BestTip() && Undoable() && orphans == map[]
      ensures tipHash == GenesisHash(c, p) && admitted == {tipHash} && admitted == disk.index.Keys
      ensures disk.index == map[GenesisHash(c, p) := GenesisRec(p)]
      ensures disk.tip == Some(tipHash) && disk.best == Some(tipHash)
      ensures log[0] == old(disk) && StartableBefore(c, p, log) && Recoverable(c, p, disk)
    {
      hide EnvOk, TreeOk, UndoOk, ViewOk, GenesisHash, GenesisRec, GenesisCoins, AdmittedOk, BestOf, MainHasUndo, Unused, OrphansOk,
           Recoverable;
      var hash, rec := GenesisHash(c, p), GenesisRec(p);
      var coins := GenesisCoins(c.txId, p.genesisBlock.transactions);
      GenesisFacts(hash, rec, coins);
      StoreGenesis(hash, rec, coins);
      tipHash, tipHeight, tipWork := hash, 0, rec.work;
      heightByHash, hashByHeight := map[hash := 0], map[0 := hash];
      utxoSet := coins;
      admitted := {hash};
    }

    /** The store calls of a first start: index, tip, UTXO batch. */
    method StoreGenesis(hash: Hash, rec: Rec, coins: Coins)
      modifies this`disk, this`log
      ensures disk == Disk(old(disk).index[hash := rec], old(disk).undo - {hash}, Some(hash), 0, Some(hash),
                           old(disk).coins + coins)
      ensures var indexed := old(disk).(index := disk.index, undo := disk.undo);
              log == old(log) + [indexed, indexed.(tip := Some(hash), tipHeight := 0), disk]
    {
      PutBlockIndex(hash, rec, None);
      disk := disk.(tip := Some(hash), tipHeight := 0);
      log := log + [disk];
      FlushBatch(disk.coins + coins, hash);
    }

    lemma {:induction false} GenesisFacts(hash: Hash, rec: Rec, coins: Coins)
      requires EnvOk(c, p) && Unused(c, p, disk) && hash == GenesisHash(c, p) && rec == GenesisRec(p)
      requires coins == GenesisCoins(c.txId, p.genesisBlock.transactions)
      ensures var ix := disk.index[hash := rec];
              && TreeOk(c, p, ix) && UndoOk(c, p, ix, disk.undo - {hash}) && disk.coins + coins == coins && ix == map[hash := rec]
              && ViewOk(c, p, ix, View(hash, 0, rec.work, map[hash := 0], map[0 := hash], coins))
              && AdmittedOk(ix, map[hash := 0], {hash}) && BestOf(ix, {hash}, hash)
              && MainHasUndo(map[0 := hash], disk.undo - {hash}) && OrphansOk(c, map[])
              && var indexed := disk.(index := ix, undo := disk.undo - {hash});
                 && Unused(c, p, indexed) && Recoverable(c, p, indexed.(tip := Some(hash), tipHeight := 0))
                 && Recoverable(c, p, Disk(ix, disk.undo - {hash}, Some(hash), 0, Some(hash), disk.coins + coins))
    {
      hide EnvOk, TreeOk, UndoOk, ViewOk, GenesisHash, GenesisCoins, CalcWork, Good, CoinsAt;
      assert disk.index[hash := rec] == map[hash := rec];
      assert disk.undo - {hash} == map[];
      GenesisView(c, p, map[hash := rec], View(hash, 0, rec.work, map[hash := 0], map[0 := hash], coins));
      GenesisClosed(map[hash := rec], hash);
      ViewFacts(c, p, map[hash := rec], View(hash, 0, rec.work, map[hash := 0], map[0 := hash], coins));
    }

    static lemma {:induction false} GenesisClosed(ix: Index, hash: Hash)
      requires ix.Keys == {hash} && ix[hash].height == 0
      ensures ParentClosed(ix, {hash})
    {
    }

    /** Walks back from a block, listing the chain by height and adding up its work. */
    method WalkBack(tip: Hash, height: nat) returns (at: map<nat, Hash>, work: nat)
      requires TreeOk(c, p, disk.index) && tip in disk.index && disk.index[tip].height == height
      ensures MainOk(disk.index, at, height, tip) && work == disk.index[tip].work
    {
      hide TreeOk, Walked, CalcWork, MainOk;
      ghost var ix := disk.index;
      var current, h := tip, height;
      at, work := map[], 0;
      StartWalk(tip, height);
      while h > 0
        invariant current in ix && ix[current].height == h && Walked(ix, at, height, tip, h, current)
        invariant work + ix[current].work == ix[tip].work
      {
        NodeStructure(c, p, ix, current);
        WalkedOn(ix, at, height, tip, h, current);
        at := at[h := current];
        work := work + CalcWork(disk.index[current].block.header.bits);
        current := disk.index[current].block.header.prevBlock;
        h := h - 1;
      }
      WalkedAll(ix, at, height, tip, current);
      HeightZeroIsGenesis(c, p, ix, current);
      GenesisRecord(c, p, ix);
      at := at[0 := current];
      work := work + CalcWork(disk.index[current].block.header.bits);
    }

    lemma {:induction false} StartWalk(tip: Hash, height: nat)
      requires tip in disk.index && disk.index[tip].height == height
      ensures Walked(disk.index, map[], height, tip, height, tip)
    {
    }

    /** Replays the main chain from empty and flushes the result over what the chainstate holds. */
    method RebuildUtxoSet()
      requires Good(c, p, disk.index, tipHash) && MainOk(disk.index, hashByHeight, tipHeight, tipHash)
      modifies this`utxoSet, this`disk, this`log
      ensures At(tipHash)
      ensures disk == old(disk).(coins := old(disk).coins + utxoSet, best := Some(tipHash)) && log == old(log) + [disk]
      ensures disk.coins == utxoSet <==> old(disk).coins.Keys <= utxoSet.Keys
      ensures old(Recoverable(c, p, disk)) ==> (Recoverable(c, p, disk) <==> disk.coins == utxoSet)
    {
      hide Connect, BlockInputsOk, StructureOk, MainOk, ChainOk, Replay, Linked, GenesisCoins, Path, Recoverable;
      ghost var ix, path := disk.index, Path(disk.index, tipHash);
      MainAt(ix, hashByHeight, tipHeight, tipHash, 0);
      MainAt(ix, hashByHeight, tipHeight, tipHash, tipHeight);
      MainBlockAt(ix, hashByHeight, tipHeight, tipHash, 0);
      assert |path| == tipHeight + 1 && ChainOk(c, p, path);
      utxoSet := GenesisCoins(c.txId, disk.index[hashByHeight[0]].block.transactions);
      ReplayOfGenesis(c, path);
      for h := 1 to tipHeight + 1
        invariant disk == old(disk) && log == old(log) && utxoSet == Replay(c.txId, path[..h])
      {
        MainAt(ix, hashByHeight, tipHeight, tipHash, h);
        MainBlockAt(ix, hashByHeight, tipHeight, tipHash, h);
        ChainStep(c, p, path, h);
        ReplayExtends(c, p, path[..h], path[h]);
        assert path[..h] + [path[h]] == path[..h + 1];
        var block := disk.index[hashByHeight[h]].block;
        utxoSet := Connect(c.txId, utxoSet, block, h).value.coins;
      }
      assert path[..tipHeight + 1] == path;
      FlushOver(disk, utxoSet);
      FlushBatch(disk.coins + utxoSet, tipHash);
    }

    /** Entries are put and none deleted, so the flush is exact just when no stored coin is foreign to the set. */
    lemma {:induction false} FlushOver(d: Disk, coins: Coins)
      requires Good(c, p, d.index, tipHash) && coins == CoinsAt(c, d.index, tipHash)
      ensures d.coins + coins == coins <==> d.coins.Keys <= coins.Keys
      ensures Recoverable(c, p, d) ==>
                (Recoverable(c, p, d.(coins := d.coins + coins, best := Some(tipHash))) <==> d.coins + coins == coins)
    {
      hide Good, CoinsAt, Recoverable;
      if d.coins.Keys <= coins.Keys { assert d.coins + coins == coins; }
      if d.coins + coins == coins { assert (d.coins + coins).Keys == d.coins.Keys + coins.Keys; }
      if Recoverable(c, p, d) {
        BatchUsableIff(c, p, d, tipHash, d.coins + coins);
        assert d.(coins := d.coins + coins, best := Some(tipHash)) == d.(best := Some(tipHash), coins := d.coins + coins);
      }
    }

    /** Takes a stored block as the tip. */
    method AdoptTip(tip: Hash, height: nat)
      requires TreeOk(c, p, disk.index) && tip in disk.index && disk.index[tip].height == height
      modifies this`tipHash, this`tipHeight, this`tipWork, this`hashByHeight
      ensures tipHash == tip && tipHeight == height && tipWork == disk.index[tip].work
      ensures MainOk(disk.index, hashByHeight, tipHeight, tipHash)
    {
      hide TreeOk, MainOk;
      hashByHeight, tipWork := WalkBack(tip, height);
      tipHash, tipHeight := tip, height;
    }

    /** Loads the chain the store describes. */
    method Load()
      requires EnvOk(c, p) && Recoverable(c, p, disk) && orphans == map[] && log == [disk]
      modifies this
      ensures Valid() && orphans == map[]
      ensures Selectable(old(disk)) && tipHash == SelectedTip(old(disk))
      ensures disk.index == old(disk).index && disk.undo == old(disk).undo && admitted == heightByHash.Keys == disk.index.Keys
      ensures disk.tip == Some(tipHash) && disk.best == Some(tipHash)
      ensures log[0] == old(disk) && StartableBefore(c, p, log)
      ensures InSync() <==> old(disk).coins.Keys <= utxoSet.Keys
      ensures Recoverable(c, p, disk) <==> InSync()
    {
      hide TreeOk, UndoOk, EnvOk, Good, CoinsAt, MainOk, HeightsOk, ParentClosed, Recoverable, ViewOk, AdmittedOk, OrphansOk, Linked;
      ghost var store := disk;
      StoredFacts(c, p, disk);
      heightByHash := map h | h in disk.index :: disk.index[h].height;
      admitted := heightByHash.Keys;
      AdoptTip(disk.tip.value, disk.tipHeight);
      if disk.best == Some(tipHash) {
        utxoSet := disk.coins;
      } else if disk.best.Some? && heightByHash[disk.best.value] > tipHeight {
        AdoptTip(disk.best.value, heightByHash[disk.best.value]);
        disk := disk.(tip := Some(tipHash), tipHeight := tipHeight);
        log := log + [disk];
        utxoSet := disk.coins;
        TipRecoverable(c, p, store, tipHash);
      } else {
        RebuildUtxoSet();
      }
      LoadedView();
    }

    lemma {:induction false} LoadedView()
      requires heightByHash == (map h | h in disk.index :: disk.index[h].height) && At(tipHash)
      requires MainOk(disk.index, hashByHeight, tipHeight, tipHash) && tipWork == disk.index[tipHash].work
      ensures ViewOk(c, p, disk.index, Memory()) && AdmittedOk(disk.index, heightByHash, heightByHash.Keys)
      ensures OrphansOk(c, map[])
    {
      hide Good, CoinsAt, MainOk, HeightsOk, ParentClosed;
      assert heightByHash.Keys == disk.index.Keys;
      WholeTreeClosed(disk.index);
      WholeTreeHeights(disk.index);
    }

    lemma {:induction false} WholeTreeClosed(ix: Index)
      requires Linked(ix)
      ensures ParentClosed(ix, ix.Keys)
    {
      forall h {:trigger ParentIn(ix, h, ix.Keys)} | h in ix.Keys ensures ParentIn(ix, h, ix.Keys) {
        assert LinkedAt(ix, h);
      }
    }

    lemma {:induction false} WholeTreeHeights(ix: Index)
      requires heightByHash == (map h | h in ix :: ix[h].height) && MainOk(ix, hashByHeight, tipHeight, tipHash)
      ensures HeightsOk(ix, heightByHash, hashByHeight, tipHeight)
    {
    }

    // ------------------------------------------------------------------------ the fork walk

    /** Walks back from a stored block to the main chain. */
    method FindFork(newTip: Hash) returns (branch: seq<Hash>, fork: Hash)
      requires Linked(disk.index) && newTip in disk.index && disk.index[newTip].height > 0
      requires forall h :: h in disk.index && disk.index[h].height == 0 ==> OnMain(heightByHash, hashByHeight, h)
      ensures BranchOk(disk.index, branch, fork) && branch[0] == newTip
      ensures OnMain(heightByHash, hashByHeight, fork)
      ensures Prev(disk.index[newTip]) in disk.index
      ensures fork == MainAncestor(disk.index, heightByHash, hashByHeight, Prev(disk.index[newTip]))
      ensures branch[|branch| - 1] == BranchRoot(disk.index, heightByHash, hashByHeight, newTip)
      ensures forall i :: 0 < i < |branch| ==> !OnMain(heightByHash, hashByHeight, branch[i])
    {
      var current := newTip;
      branch := [newTip];
      assert LinkedAt(disk.index, newTip);
      ghost var ix, top := disk.index, disk.index[newTip].height;
      while !OnMain(heightByHash, hashByHeight, Prev(disk.index[current]))
        invariant branch != [] && branch[0] == newTip && branch[|branch| - 1] == current
        invariant forall i :: 0 <= i < |branch| ==> branch[i] in ix && ix[branch[i]].height == top - i && top - i > 0
        invariant forall i :: 0 <= i < |branch| - 1 ==> Prev(ix[branch[i]]) == branch[i + 1]
        invariant Prev(ix[current]) in ix
        invariant MainAncestor(ix, heightByHash, hashByHeight, Prev(ix[current])) ==
                  MainAncestor(ix, heightByHash, hashByHeight, Prev(ix[newTip]))
        invariant BranchRoot(ix, heightByHash, hashByHeight, current) == BranchRoot(ix, heightByHash, hashByHeight, newTip)
        invariant forall i :: 0 < i < |branch| ==> !OnMain(heightByHash, hashByHeight, branch[i])
        decreases ix[current].height
      {
        assert LinkedAt(ix, current) && LinkedAt(ix, Prev(ix[current]));
        current := Prev(disk.index[current]);
        branch := branch + [current];
      }
      assert LinkedAt(ix, current);
      fork := Prev(disk.index[current]);
    }

    lemma {:induction false} OnlyGenesisAtZero(h: Hash)
      requires TreeOk(c, p, disk.index) && MainOk(disk.index, hashByHeight, tipHeight, tipHash)
      requires HeightsOk(disk.index, heightByHash, hashByHeight, tipHeight)
      requires h in disk.index && disk.index[h].height == 0
      ensures OnMain(heightByHash, hashByHeight, h)
    {
      HeightZeroIsGenesis(c, p, disk.index, h);
      HeightZeroIsGenesis(c, p, disk.index, hashByHeight[0]);
    }

    // --------------------------------------------------------------------- the reorganisation

    /** Flushes one atomic UTXO batch. */
    method FlushBatch(coins: Coins, best: Hash)
      modifies this`disk, this`log
      ensures disk == old(disk).(coins := coins, best := Some(best)) && log == old(log) + [disk]
    {
      disk := disk.(coins := coins, best := Some(best));
      log := log + [disk];
    }

    /** The in-memory UTXO set is the one after the validated path to `h`. */
    ghost predicate At(h: Hash)
      reads this
    {
      Linked(disk.index) && Good(c, p, disk.index, h) && utxoSet == CoinsAt(c, disk.index, h)
    }

    /** Disconnects one block and flushes the result with its parent as best block. */
    method DisconnectOne(hash: Hash)
      requires EnvOk(c, p) && UndoOk(c, p, disk.index, disk.undo) && hash in disk.undo
      requires hash in disk.index && At(hash)
      modifies this`utxoSet, this`disk, this`log
      ensures disk == old(disk).(coins := disk.coins, best := Some(Prev(old(disk).index[hash])))
      ensures At(Prev(old(disk).index[hash]))
      ensures old(disk.coins == utxoSet) ==> disk.coins == utxoSet
      ensures Tracks(old(disk).coins, old(utxoSet), disk.coins, utxoSet, Touched(c.txId, disk.index[hash].block))
      ensures log == old(log) + [disk]
    {
      hide UndoOk, EnvOk, Good, CoinsAt, UndoAt, Disconnect, Tracks, Touched, Recorded;
      UndoFor(c, p, disk.index, disk.undo, hash);
      StepBack(c, p, disk.index, hash);
      var block, undo := disk.index[hash].block, disk.undo[hash];
      UndoTouches(c, p, disk.index, hash);
      BackTracks(c.txId, disk.coins, utxoSet, block, undo);
      utxoSet := Disconnect(c.txId, utxoSet, block, undo);
      FlushBatch(Disconnect(c.txId, disk.coins, block, undo), block.header.prevBlock);
    }

    /** So is the flushed one, and every disk since `from` could be started from. */
    ghost predicate SyncedAt(h: Hash, from: nat)
      reads this
    {
      && disk.best == Some(h) && disk.coins == utxoSet
      && Recoverable(c, p, disk) && AllRecoverable(c, p, log, from)
    }

    /** Disconnects main-chain blocks from the tip down to a height, flushing each; stops if undo data is missing. */
    method DisconnectTo(f: nat, ghost from: nat) returns (ok: bool, ghost reached: Hash)
      requires EnvOk(c, p) && UndoOk(c, p, disk.index, disk.undo) && f <= tipHeight
      requires MainOk(disk.index, hashByHeight, tipHeight, tipHash) && At(tipHash)
      modifies this`utxoSet, this`disk, this`log
      ensures disk == old(disk).(coins := disk.coins, best := disk.best) && old(log) <= log
      ensures At(reached) && (ok ==> f in hashByHeight && reached == hashByHeight[f])
      ensures ok <==> !UndoMissing(hashByHeight, disk.undo, f)
      ensures var n := StopsDown(hashByHeight, disk.undo, tipHeight, f); n in hashByHeight && reached == hashByHeight[n]
      ensures f == tipHeight || tipHash !in disk.undo ==> disk == old(disk)
      ensures f < tipHeight && tipHash in disk.undo ==>
                disk.best == Some(reached) && reached in disk.index && disk.index[reached].height < tipHeight
      ensures ok ==> Tracks(old(disk).coins, old(utxoSet), disk.coins, utxoSet, TouchedBy(c.txId, disk.index, MainAbove(hashByHeight, f)))
      ensures old(Ends()) ==> Ends()
      ensures old(SyncedAt(tipHash, from)) ==> SyncedAt(reached, from)
    {
      hide UndoOk, EnvOk, Good, CoinsAt, MainOk, Recoverable, AllRecoverable, Tracks, TouchedBy, MainAbove, Touched;
      var h := tipHeight;
      ghost var sync := SyncedAt(tipHash, from);
      MainAt(disk.index, hashByHeight, tipHeight, tipHash, tipHeight);
      NoneAbove(disk.index, hashByHeight, tipHeight, tipHash);
      TouchedMore(c.txId, disk.index, {}, tipHash);
      TracksNothing(disk.coins, utxoSet);
      while h > f
        invariant f <= h <= tipHeight && h in hashByHeight
        invariant disk == old(disk).(coins := disk.coins, best := disk.best)
        invariant At(hashByHeight[h]) && old(log) <= log
        invariant if h == tipHeight then disk == old(disk) else disk.best == Some(hashByHeight[h]) && tipHash in disk.undo
        invariant hashByHeight[h] in disk.index && disk.index[hashByHeight[h]].height == h && hashByHeight[tipHeight] == tipHash
        invariant forall i: nat :: h < i <= tipHeight ==> i in hashByHeight && hashByHeight[i] in disk.undo
        invariant StopsDown(hashByHeight, disk.undo, tipHeight, f) == StopsDown(hashByHeight, disk.undo, h, f)
        invariant Tracks(old(disk).coins, old(utxoSet), disk.coins, utxoSet, TouchedBy(c.txId, disk.index, MainAbove(hashByHeight, h)))
        invariant old(Ends()) ==> Ends()
        invariant sync ==> SyncedAt(hashByHeight[h], from)
      {
        var hash := hashByHeight[h];
        MainAt(disk.index, hashByHeight, tipHeight, tipHash, h);
        if hash !in disk.undo { return false, hash; }
        ghost var before, logged, coins := disk, log, utxoSet;
        DisconnectOne(hash);
        if sync {
          BatchRecoverable(c, p, before, disk.best.value);
          LogAppend(c, p, logged, from, disk);
        }
        OneMoreAbove(hashByHeight, h);
        TouchedMore(c.txId, disk.index, MainAbove(hashByHeight, h), hash);
        TracksJoin(old(disk).coins, old(utxoSet), before.coins, coins, disk.coins, utxoSet,
                   TouchedBy(c.txId, disk.index, MainAbove(hashByHeight, h)), Touched(c.txId, disk.index[hash].block));
        h := h - 1;
        MainAt(disk.index, hashByHeight, tipHeight, tipHash, h);
      }
      MainHeights(disk.index, hashByHeight, tipHeight, tipHash);
      return true, hashByHeight[f];
    }

    /** Forgets the main chain above a height. */
    method RemoveAbove(f: nat)
      requires MainOk(disk.index, hashByHeight, tipHeight, tipHash) && f <= tipHeight
      requires HeightsOk(disk.index, heightByHash, hashByHeight, tipHeight)
      modifies this`heightByHash, this`hashByHeight
      ensures MainOk(disk.index, hashByHeight, f, old(hashByHeight)[f])
      ensures HeightsOk(disk.index, heightByHash, hashByHeight, f)
      ensures heightByHash == old(heightByHash) - MainAbove(old(hashByHeight), f) && Grafted(hashByHeight, old(hashByHeight), [])
    {
      hide MainOk, HeightsOk, MainAbove, MainBetween, Grafted;
      ghost var ix, at, heightOf := disk.index, hashByHeight, heightByHash;
      var h := f + 1;
      NoneBetween(at, f);
      MainHeights(ix, at, tipHeight, tipHash);
      while h <= tipHeight
        invariant f + 1 <= h <= tipHeight + 1
        invariant forall i: nat :: i in hashByHeight <==> i <= f || h <= i <= tipHeight
        invariant forall i: nat :: i in hashByHeight ==> hashByHeight[i] == at[i]
        invariant heightByHash == heightOf - MainBetween(at, f, h)
      {
        BetweenGrows(at, f, h);
        heightByHash := heightByHash - {hashByHeight[h]};
        hashByHeight := hashByHeight - {h};
        h := h + 1;
      }
      AllBetween(at, f, tipHeight);
      MainTruncate(ix, at, tipHeight, tipHash, hashByHeight, f);
      HeightsBelow(ix, heightOf, at, tipHeight, tipHash, hashByHeight, f);
    }

    /** Validates a stored block on the current set, connects it and flushes the batch. */
    method ConnectOne(hash: Hash, height: nat) returns (r: Option<Undo>)
      requires TreeOk(c, p, disk.index) && hash in disk.index
      requires disk.index[hash].height == height > 0 && At(Prev(disk.index[hash]))
      modifies this`utxoSet, this`disk, this`log
      ensures r.None? ==> disk == old(disk) && utxoSet == old(utxoSet) && log == old(log) && !Good(c, p, disk.index, hash)
      ensures r.Some? ==>
                && disk == old(disk).(coins := disk.coins, best := Some(hash)) && log == old(log) + [disk]
                && At(hash) && r.value == UndoAt(c, disk.index, hash)
                && (old(disk.coins == utxoSet) ==> disk.coins == utxoSet)
                && Tracks(old(disk).coins, old(utxoSet), disk.coins, utxoSet, Touched(c.txId, disk.index[hash].block))
    {
      hide TreeOk, Good, CoinsAt, UndoAt, Connect, StructureOk, BlockInputsOk, PersistConnect, OutputKeys, SpentSet,
           Tracks, Touched, AgreeAway;
      var block := disk.index[hash].block;
      NodeStructure(c, p, disk.index, hash);
      var fees := ValidateTransactionInputs(c.verify, p, utxoSet, height, block);
      if fees.None? {
        if Good(c, p, disk.index, hash) { GoodWasValidated(c, p, disk.index, hash); }
        return None;
      }
      StepForward(c, p, disk.index, hash);
      PersistExactIff(c.txId, disk.coins, utxoSet, block, height);
      AgreeWithItself(c.txId, utxoSet, block);
      ForwardTracks(c.txId, disk.coins, utxoSet, block, height);
      var connected := Connect(c.txId, utxoSet, block, height).value;
      utxoSet := connected.coins;
      FlushBatch(PersistConnect(c.txId, disk.coins, block, connected.coins, connected.undo), hash);
      return Some(connected.undo);
    }

    /** The undo data of the blocks of a branch from its root up to position `i`, oldest first. */
    ghost predicate Collected(branch: seq<Hash>, i: nat, connected: seq<(Hash, Undo)>)
      reads this
    {
      && Linked(disk.index) && |connected| + i == |branch|
      && forall j :: 0 <= j < |connected| ==>
           && connected[j].0 == branch[|branch| - 1 - j]
           && connected[j].0 in disk.index && disk.index[connected[j].0].height > 0
           && Good(c, p, disk.index, connected[j].0) && connected[j].1 == UndoAt(c, disk.index, connected[j].0)
    }

    /** Main chain, heights and UTXO set all end at `h`. */
    ghost predicate MainEndsAt(h: Hash)
      reads this
    {
      && At(h) && MainOk(disk.index, hashByHeight, disk.index[h].height, h)
      && HeightsOk(disk.index, heightByHash, hashByHeight, disk.index[h].height)
    }

    lemma {:induction false} MainGrows(h: Hash, at: map<nat, Hash>, heightOf: map<Hash, nat>)
      requires Linked(disk.index) && h in disk.index && disk.index[h].height > 0 && Prev(disk.index[h]) in disk.index
      requires disk.index[Prev(disk.index[h])].height + 1 == disk.index[h].height
      requires MainOk(disk.index, at, disk.index[Prev(disk.index[h])].height, Prev(disk.index[h]))
      requires HeightsOk(disk.index, heightOf, at, disk.index[Prev(disk.index[h])].height)
      ensures var n := disk.index[h].height;
              MainOk(disk.index, at[n := h], n, h) && HeightsOk(disk.index, heightOf[h := n], at[n := h], n)
    {
      MainExtend(disk.index, at, disk.index[h].height - 1, Prev(disk.index[h]), h);
    }

    /** The blocks under a validated block are validated. */
    lemma {:induction false} GoodBelow(branch: seq<Hash>, fork: Hash, i: nat)
      requires BranchOk(disk.index, branch, fork) && i < |branch| && Good(c, p, disk.index, branch[0])
      ensures Good(c, p, disk.index, branch[i])
    {
      hide Good, CoinsAt, BlockInputsOk;
      if i > 0 {
        GoodBelow(branch, fork, i - 1);
        GoodWasValidated(c, p, disk.index, branch[i - 1]);
        assert Prev(disk.index[branch[i - 1]]) == branch[i];
      }
    }

    /** Nothing above a block that fails is validated, so the block below it is the last that is. */
    lemma {:induction false} LastGoodOf(branch: seq<Hash>, fork: Hash, i: nat)
      requires Linked(disk.index) && BranchOk(disk.index, branch, fork) && i < |branch|
      requires !Good(c, p, disk.index, branch[i])
      ensures branch[0] in disk.index && LastGood(c, p, disk.index, branch[0]) == LastGood(c, p, disk.index, branch[i])
      ensures var below := if i + 1 < |branch| then branch[i + 1] else fork;
              Good(c, p, disk.index, below) ==> LastGood(c, p, disk.index, branch[i]) == below
    {
      hide Good, BranchOk;
      BranchAt(disk.index, branch, fork, i);
      BranchAt(disk.index, branch, fork, 0);
      GoodIsLast(if i + 1 < |branch| then branch[i + 1] else fork);
      if i > 0 {
        BranchAt(disk.index, branch, fork, i - 1);
        if Good(c, p, disk.index, branch[i - 1]) { GoodParent(branch[i - 1]); }
        LastGoodOf(branch, fork, i - 1);
      }
    }

    lemma {:induction false} GoodIsLast(h: Hash)
      requires Linked(disk.index) && h in disk.index
      ensures Good(c, p, disk.index, h) ==> LastGood(c, p, disk.index, h) == h
    {
      hide Good;
    }

    lemma {:induction false} GoodParent(h: Hash)
      requires Linked(disk.index) && Good(c, p, disk.index, h) && disk.index[h].height > 0
      ensures Good(c, p, disk.index, Prev(disk.index[h]))
    {
      hide CoinsAt, BlockInputsOk;
      GoodWasValidated(c, p, disk.index, h);
    }

    /** Validates and connects a branch from the fork upwards; stops at the first block that fails. */
    method ConnectBranch(branch: seq<Hash>, fork: Hash, ghost from: nat)
      returns (ok: bool, connected: seq<(Hash, Undo)>, ghost reached: Hash)
      requires TreeOk(c, p, disk.index) && BranchOk(disk.index, branch, fork) && MainEndsAt(fork)
      modifies this`utxoSet, this`disk, this`log, this`heightByHash, this`hashByHeight
      ensures disk == old(disk).(coins := disk.coins, best := disk.best) && old(log) <= log
      ensures At(reached) && (ok ==> reached == branch[0] && MainEndsAt(reached))
      ensures !ok ==> !Good(c, p, disk.index, branch[0]) && Linked(disk.index) && reached == LastGood(c, p, disk.index, branch[0])
      ensures heightByHash.Keys <= old(heightByHash).Keys + HashSet(branch)
      ensures ok ==> Collected(branch, 0, connected) && Grafted(hashByHeight, old(hashByHeight), branch)
      ensures ok ==> heightByHash.Keys == old(heightByHash).Keys + HashSet(branch)
      ensures ok ==> MainAbove(hashByHeight, disk.index[fork].height) == HashSet(branch)
      ensures !ok ==> if Good(c, p, disk.index, branch[|branch| - 1]) then disk.best == Some(reached) && reached in branch
                      else disk == old(disk)
      ensures ok ==>
                && disk.best == Some(reached)
                && Tracks(old(disk).coins, old(utxoSet), disk.coins, utxoSet, TouchedBy(c.txId, disk.index, HashSet(branch)))
      ensures old(Ends()) ==> Ends()
      ensures old(SyncedAt(fork, from)) ==> SyncedAt(reached, from)
    {
      hide TreeOk, Good, CoinsAt, UndoAt, MainOk, HeightsOk, SyncedAt, HashSet, MainAbove, Grafted, BranchOk, Linked, ConnectedFrom,
           LastGood, Tracks, TouchedBy, Touched;
      ghost var sync := SyncedAt(fork, from);
      connected := [];
      reached := fork;
      var i := |branch|;
      BranchAt(disk.index, branch, fork, 0);
      ghost var f := disk.index[fork].height;
      NothingConnected(disk.index, heightByHash, hashByHeight, branch, f, fork);
      NoSuffix(branch);
      TouchedMore(c.txId, disk.index, {}, fork);
      TracksNothing(disk.coins, utxoSet);
      while i > 0
        invariant 0 <= i <= |branch|
        invariant disk == old(disk).(coins := disk.coins, best := disk.best) && old(log) <= log
        invariant reached == if i < |branch| then branch[i] else fork
        invariant MainEndsAt(reached) && Collected(branch, i, connected)
        invariant reached in disk.index && disk.index[reached].height >= f
        invariant ConnectedFrom(old(heightByHash), old(hashByHeight), heightByHash, hashByHeight, branch, i, f)
        invariant if i == |branch| then disk == old(disk)
                  else Good(c, p, disk.index, branch[|branch| - 1]) && disk.best == Some(reached)
        invariant Tracks(old(disk).coins, old(utxoSet), disk.coins, utxoSet, TouchedBy(c.txId, disk.index, HashSet(branch[i..])))
        invariant old(Ends()) ==> Ends()
        invariant sync ==> SyncedAt(reached, from)
      {
        i := i - 1;
        BranchAt(disk.index, branch, fork, i);
        ghost var heightOf, at, below, stored, coins := heightByHash, hashByHeight, reached, disk.coins, utxoSet;
        var undo := ConnectNext(branch, fork, i, reached, from);
        if undo.None? {
          if Good(c, p, disk.index, branch[0]) { GoodBelow(branch, fork, i); }
          LastGoodOf(branch, fork, i);
          AllConnected(old(heightByHash), old(hashByHeight), heightByHash, hashByHeight, branch, i + 1, f);
          return false, connected, reached;
        }
        ConnectedNext(disk.index, old(heightByHash), old(hashByHeight), heightOf, at, branch, i, f, below);
        SuffixGrows(branch, i);
        TouchedMore(c.txId, disk.index, HashSet(branch[i + 1..]), branch[i]);
        TracksJoin(old(disk).coins, old(utxoSet), stored, coins, disk.coins, utxoSet,
                   TouchedBy(c.txId, disk.index, HashSet(branch[i + 1..])), Touched(c.txId, disk.index[branch[i]].block));
        connected := connected + [(branch[i], undo.value)];
        reached := branch[i];
      }
      AllConnected(old(heightByHash), old(hashByHeight), heightByHash, hashByHeight, branch, 0, f);
      return true, connected, reached;
    }

    static lemma {:induction false} NoSuffix(xs: seq<Hash>)
      ensures HashSet(xs[|xs|..]) == {} && xs[0..] == xs
    {
    }

    /** One block of the branch: validated, connected, flushed and entered in both indexes, or nothing at all. */
    method ConnectNext(branch: seq<Hash>, ghost fork: Hash, i: nat, ghost reached: Hash, ghost from: nat) returns (undo: Option<Undo>)
      requires TreeOk(c, p, disk.index) && BranchOk(disk.index, branch, fork) && MainEndsAt(reached)
      requires i < |branch| && reached == if i + 1 < |branch| then branch[i + 1] else fork
      modifies this`utxoSet, this`disk, this`log, this`heightByHash, this`hashByHeight
      ensures old(Ends()) ==> Ends()
      ensures disk == old(disk).(coins := disk.coins, best := disk.best) && old(log) <= log
      ensures undo.None? ==> disk == old(disk) && utxoSet == old(utxoSet) && log == old(log)
      ensures undo.None? ==> heightByHash == old(heightByHash) && hashByHeight == old(hashByHeight)
      ensures undo.None? ==> !Good(c, p, disk.index, branch[i])
      ensures undo.Some? ==>
                && MainEndsAt(branch[i]) && disk.best == Some(branch[i])
                && disk.index[branch[i]].height > 0 && undo.value == UndoAt(c, disk.index, branch[i])
                && heightByHash == old(heightByHash)[branch[i] := disk.index[branch[i]].height]
                && hashByHeight == old(hashByHeight)[disk.index[branch[i]].height := branch[i]]
                && (old(SyncedAt(reached, from)) ==> SyncedAt(branch[i], from))
                && Tracks(old(disk).coins, old(utxoSet), disk.coins, utxoSet, Touched(c.txId, disk.index[branch[i]].block))
    {
      hide TreeOk, Good, CoinsAt, UndoAt, MainOk, HeightsOk, Recoverable, AllRecoverable, BranchOk, Tracks, Touched;
      BranchAt(disk.index, branch, fork, i);
      ghost var before, logged, sync := disk, log, SyncedAt(reached, from);
      var hash := branch[i];
      var height := disk.index[hash].height;
      undo := ConnectOne(hash, height);
      if undo.None? { return; }
      MainGrows(hash, hashByHeight, heightByHash);
      heightByHash := heightByHash[hash := height];
      hashByHeight := hashByHeight[height := hash];
      if sync {
        BatchRecoverable(c, p, before, hash);
        LogAppend(c, p, logged, from, disk);
      }
    }

    /** Records undo data for connected blocks, one index write each. */
    method WriteUndoData(connected: seq<(Hash, Undo)>, ghost branch: seq<Hash>)
      requires UndoOk(c, p, disk.index, disk.undo) && Collected(branch, 0, connected)
      modifies this`disk, this`log
      ensures disk == old(disk).(undo := disk.undo) && old(log) <= log
      ensures old(Ends()) ==> Ends()
      ensures UndoOk(c, p, disk.index, disk.undo)
      ensures disk.undo.Keys == old(disk).undo.Keys + HashSet(branch)
      ensures old(Recoverable(c, p, disk)) ==> Recoverable(c, p, disk) && AllRecoverable(c, p, log, |old(log)|)
    {
      hide Good, UndoAt, TreeOk, UndoOk, Recoverable, AllRecoverable, Extends;
      ghost var n0, sync := |log|, Recoverable(c, p, disk);
      LogEmpty();
      RecoverableTree();
      for i := 0 to |connected|
        invariant disk == old(disk).(undo := disk.undo) && old(log) <= log
        invariant old(Ends()) ==> Ends()
        invariant UndoOk(c, p, disk.index, disk.undo)
        invariant disk.undo.Keys == old(disk).undo.Keys + HashSet(branch[|branch| - i..])
        invariant sync ==> Recoverable(c, p, disk) && AllRecoverable(c, p, log, n0)
      {
        ghost var before, logged := disk, log;
        disk := disk.(undo := disk.undo[connected[i].0 := connected[i].1]);
        log := log + [disk];
        assert branch[|branch| - (i + 1)..] == [connected[i].0] + branch[|branch| - i..];
        UndoAdd(c, p, before.index, before.undo, connected[i].0);
        if sync {
          ExtendsItself(disk.index);
          IndexRecoverable(c, p, before, disk.index, disk.undo);
          LogAppend(c, p, logged, n0, disk);
        }
      }
      assert branch[0..] == branch;
    }

    lemma {:induction false} RecoverableTree()
      ensures Recoverable(c, p, disk) ==> TreeOk(c, p, disk.index)
    {
    }

    /** Ancestors of an admitted parent are admitted. */
    lemma {:induction false} BranchAdmitted(branch: seq<Hash>, fork: Hash, i: nat)
      requires BranchOk(disk.index, branch, fork) && ParentClosed(disk.index, admitted)
      requires Prev(disk.index[branch[0]]) in admitted && 0 < i < |branch|
      ensures branch[i] in admitted
    {
      if i > 1 {
        BranchAdmitted(branch, fork, i - 1);
        assert ParentIn(disk.index, branch[i - 1], admitted);
      }
      assert Prev(disk.index[branch[i - 1]]) == branch[i];
    }

    /**
     * Makes the stored block `newTip` the tip: disconnect down to the fork, connect the branch, write the tip.
     * On failure memory is put back as it was.
     */
    method Reorg(newTip: Hash, newHeight: nat, newWork: nat) returns (r: ReorgResult)
      requires EnvOk(c, p) && Consistent() && ParentClosed(disk.index, admitted) && Linked(disk.index)
      requires newTip in disk.index && disk.index[newTip].height == newHeight > 0
      requires disk.index[newTip].work == newWork
      requires Prev(disk.index[newTip]) in disk.index && Prev(disk.index[newTip]) in admitted
      modifies this`tipHash, this`tipHeight, this`tipWork, this`heightByHash, this`hashByHeight, this`utxoSet, this`disk, this`log
      ensures !r.Done? ==> Memory() == old(Memory())
      ensures r.TooDeep? ==> disk == old(disk) && log == old(log)
      ensures r == SwitchResult(c, p, disk.index, old(disk).undo, old(Memory()), newTip)
      ensures r.Done? ==>
                Rehung(old(heightByHash), old(hashByHeight), heightByHash, hashByHeight, ForkBelow(disk.index, old(Memory()), newTip))
      ensures old(Recoverable(c, p, disk) && InSync() && OffMain(hashByHeight, newTip)) && r.Failed? ==>
                if Idle(c, p, disk.index, old(disk).undo, old(Memory()), newTip) then InSync() else disk.best != disk.tip
      ensures old(Recoverable(c, p, disk) && InSync()) && r.Failed? ==>
                disk == old(disk).(best := Some(StopAt(c, p, disk.index, disk.undo, old(Memory()), newTip)), coins := disk.coins)
      ensures old(OffMain(hashByHeight, newTip)) ==>
                (InSync() <==> SyncAfterSwitch(c, p, disk.index, old(disk).undo, old(Memory()), newTip, old(disk).coins, old(InSync())))
      ensures r.Done? ==> disk.best == Some(tipHash) && disk.tipHeight == tipHeight
      ensures disk.index == old(disk).index && old(log) <= log
      ensures Consistent()
      ensures heightByHash.Keys <= old(heightByHash).Keys + admitted + {newTip}
      ensures r.Done? ==> tipHash == newTip && newTip in disk.undo
      ensures old(MainHasUndo(hashByHeight, disk.undo)) ==> MainHasUndo(hashByHeight, disk.undo)
      ensures old(Recoverable(c, p, disk) && InSync()) ==>
                AllRecoverable(c, p, log, |old(log)|) && Recoverable(c, p, disk) && (!r.Failed? ==> InSync())
    {
      hide Good, CoinsAt, TreeOk, ViewOk, UndoOk, EnvOk, Recoverable, AllRecoverable, ParentClosed, BranchOk, MainOk, HeightsOk,
           MainHasUndo, HashSet, UndoMissing, MainAbove, MainAncestor, BranchRoot, OffMain, Linked, Rehung, StopFrom,
           Tracks, TouchedBy, WayAbove;
      GenesisOnMain();
      var branch, fork := FindFork(newTip);
      var f := heightByHash[fork];
      ForkIsMain(fork, branch);
      if OffMain(hashByHeight, newTip) { TipNotInBranch(branch); }
      if p.maxReorgDepth > 0 && tipHeight - f > p.maxReorgDepth {
        LogEmpty();
        return TooDeep;
      }
      BranchIsAdmitted(branch, fork);
      ghost var stored, v := disk.coins, Memory();
      var ok := SwitchOver(newTip, newHeight, newWork, branch, fork, f);
      if ok { SwitchSynced(stored, v, newTip, f); }
      return if ok then Done else Failed;
    }

    /** After a completed switch disk equals memory exactly when the two agreed on what it did not touch. */
    lemma {:induction false} SwitchSynced(stored: Coins, v: View, newTip: Hash, f: nat)
      requires Consistent() && Linked(disk.index) && ViewOk(c, p, disk.index, v) && tipHash == newTip
      requires ForkBelow(disk.index, v, newTip) == f && disk.best == Some(tipHash) && disk.tipHeight == tipHeight
      requires Tracks(stored, v.coins, disk.coins, utxoSet, TouchedBy(c.txId, disk.index, MainAbove(v.at, f) + MainAbove(hashByHeight, f)))
      ensures var t := SwitchTouches(c.txId, disk.index, v, newTip); InSync() <==> stored - t == v.coins - t
    {
      hide TreeOk, UndoOk, Good, CoinsAt, Linked, MainOk, HeightsOk, TouchedBy, WayAbove, MainAbove, ForkBelow, Tracks;
      ViewFacts(c, p, disk.index, v);
      ViewFacts(c, p, disk.index, Memory());
      AboveIsWay(c, p, disk.index, v.at, v.height, v.tip, f);
      AboveIsWay(c, p, disk.index, hashByHeight, tipHeight, tipHash, f);
      TracksIff(stored, v.coins, disk.coins, utxoSet, SwitchTouches(c.txId, disk.index, v, newTip));
    }

    /** Switches along a known branch, or puts memory back. */
    method SwitchOver(newTip: Hash, newHeight: nat, newWork: nat, branch: seq<Hash>, fork: Hash, f: nat) returns (ok: bool)
      requires EnvOk(c, p) && Consistent() && BranchOk(disk.index, branch, fork) && branch != [] && branch[0] == newTip
      requires newTip in disk.index && disk.index[newTip].height == newHeight && disk.index[newTip].work == newWork
      requires fork in disk.index && disk.index[fork].height == f <= tipHeight && f in hashByHeight && hashByHeight[f] == fork
      modifies this`tipHash, this`tipHeight, this`tipWork, this`heightByHash, this`hashByHeight, this`utxoSet, this`disk, this`log
      ensures Consistent() && disk.index == old(disk).index && old(log) <= log
      ensures ok <==> !UndoMissing(old(hashByHeight), old(disk).undo, f) && Good(c, p, disk.index, newTip)
      ensures !ok ==> Memory() == old(Memory()) && disk == old(disk).(best := disk.best, coins := disk.coins)
      ensures ok ==> tipHash == newTip && newTip in disk.undo
      ensures ok ==>
                && disk.best == Some(tipHash) && disk.tipHeight == tipHeight
                && Tracks(old(disk).coins, old(utxoSet), disk.coins, utxoSet,
                          TouchedBy(c.txId, disk.index, MainAbove(old(hashByHeight), f) + MainAbove(hashByHeight, f)))
      ensures !ok && tipHash !in branch ==>
                if old(Untouched(f, branch[|branch| - 1])) then disk == old(disk) else disk.best != Some(tipHash)
      ensures ok ==> Rehung(old(heightByHash), old(hashByHeight), heightByHash, hashByHeight, f)
      ensures heightByHash.Keys <= old(heightByHash).Keys + HashSet(branch)
      ensures old(MainHasUndo(hashByHeight, disk.undo)) ==> MainHasUndo(hashByHeight, disk.undo)
      ensures old(Recoverable(c, p, disk) && InSync()) ==>
                && AllRecoverable(c, p, log, |old(log)|) && Recoverable(c, p, disk) && (ok ==> InSync())
                && (!ok && tipHash !in branch ==> if old(Untouched(f, branch[|branch| - 1])) then InSync() else disk.best != disk.tip)
                && (!ok ==> disk.best == Some(StopFrom(c, p, disk.index, disk.undo, old(Memory()), f, newTip)))
    {
      hide Good, CoinsAt, UndoAt, TreeOk, Recoverable, MainOk, HeightsOk, UndoOk, EnvOk, AllRecoverable, BranchOk,
           MainHasUndo, Grafted, HashSet, UndoMissing, MainAbove, Linked, StopFrom, Tracks, TouchedBy;
      ghost var from, undo0 := |log|, disk.undo;
      var heightByHash0, hashByHeight0, utxoSet0 := heightByHash, hashByHeight, utxoSet;
      LogEmpty();
      ViewFacts(c, p, disk.index, Memory());
      var r := SwitchBranch(branch, fork, f, from);
      if r.None? {
        heightByHash, hashByHeight, utxoSet := heightByHash0, hashByHeight0, utxoSet0;
        return false;
      }
      CommitTip(newTip, newHeight, newWork, r.value, branch, from);
      GraftHasUndo(hashByHeight, hashByHeight0, branch, disk.undo, undo0);
      HeadInSet(branch);
      return true;
    }

    static lemma {:induction false} HeadInSet(xs: seq<Hash>)
      requires xs != []
      ensures xs[0] in HashSet(xs)
    {
    }

    /** Rolls the UTXO set back to the fork and forward along the branch. */
    method SwitchBranch(branch: seq<Hash>, fork: Hash, f: nat, ghost from: nat) returns (r: Option<seq<(Hash, Undo)>>)
      requires EnvOk(c, p) && TreeOk(c, p, disk.index) && UndoOk(c, p, disk.index, disk.undo) && At(tipHash)
      requires MainOk(disk.index, hashByHeight, tipHeight, tipHash)
      requires HeightsOk(disk.index, heightByHash, hashByHeight, tipHeight)
      requires BranchOk(disk.index, branch, fork) && f <= tipHeight && f in hashByHeight && hashByHeight[f] == fork
      requires fork in disk.index && disk.index[fork].height == f
      modifies this`utxoSet, this`disk, this`log, this`heightByHash, this`hashByHeight
      ensures disk == old(disk).(coins := disk.coins, best := disk.best) && old(log) <= log
      ensures r.Some? ==> branch != [] && MainEndsAt(branch[0]) && Collected(branch, 0, r.value)
      ensures r.Some? ==> Grafted(hashByHeight, old(hashByHeight), branch) && MainAbove(hashByHeight, f) == HashSet(branch)
      ensures r.Some? ==> heightByHash.Keys == (old(heightByHash).Keys - MainAbove(old(hashByHeight), f)) + HashSet(branch)
      ensures r.None? <==> UndoMissing(old(hashByHeight), disk.undo, f) || !Good(c, p, disk.index, branch[0])
      ensures branch != []
      ensures r.Some? ==>
                && disk.best == Some(branch[0])
                && Tracks(old(disk).coins, old(utxoSet), disk.coins, utxoSet,
                          TouchedBy(c.txId, disk.index, MainAbove(old(hashByHeight), f) + HashSet(branch)))
      ensures r.None? && Untouched(f, branch[|branch| - 1]) ==> disk == old(disk)
      ensures r.None? && !Untouched(f, branch[|branch| - 1]) && tipHash !in branch ==> disk.best != Some(tipHash)
      ensures r.None? && old(SyncedAt(tipHash, from)) ==>
                disk.best == Some(StopFrom(c, p, disk.index, disk.undo, old(Memory()), f, branch[0]))
      ensures old(Ends()) ==> Ends()
      ensures old(SyncedAt(tipHash, from)) ==>
                && Recoverable(c, p, disk) && AllRecoverable(c, p, log, from)
                && (r.Some? ==> SyncedAt(branch[0], from))
    {
      hide Good, CoinsAt, UndoAt, TreeOk, Recoverable, MainOk, HeightsOk, UndoOk, EnvOk, AllRecoverable, BranchOk, Grafted,
           MainAbove, HashSet, UndoMissing, Linked, StopsDown, LastGood, Tracks, TouchedBy;
      ghost var at := hashByHeight;
      MainAt(disk.index, hashByHeight, tipHeight, tipHash, tipHeight);
      BranchAt(disk.index, branch, fork, 0);
      MissingAtTip(disk.index, hashByHeight, tipHeight, tipHash, disk.undo, f);
      var disconnected, _ := DisconnectTo(f, from);
      if !disconnected { return None; }
      ghost var stored, coins := disk.coins, utxoSet;
      RemoveAbove(f);
      ghost var cut := hashByHeight;
      var all, connected, _ := ConnectBranch(branch, fork, from);
      if !all { return None; }
      GraftTwice(hashByHeight, cut, at, branch);
      TouchedUnion(c.txId, disk.index, MainAbove(at, f), HashSet(branch));
      TracksJoin(old(disk).coins, old(utxoSet), stored, coins, disk.coins, utxoSet,
                 TouchedBy(c.txId, disk.index, MainAbove(at, f)), TouchedBy(c.txId, disk.index, HashSet(branch)));
      return Some(connected);
    }

    /** A switch that fails leaves the disk alone: it would begin by disconnecting the tip, or by connecting `root`, and cannot. */
    ghost predicate Untouched(f: nat, root: Hash)
      reads this
    {
      if f < tipHeight then tipHash !in disk.undo else !Good(c, p, disk.index, root)
    }

    lemma {:induction false} BranchIsAdmitted(branch: seq<Hash>, fork: Hash)
      requires BranchOk(disk.index, branch, fork) && ParentClosed(disk.index, admitted)
      requires Prev(disk.index[branch[0]]) in admitted
      ensures HashSet(branch) <= admitted + {branch[0]} && branch[0] in HashSet(branch)
    {
      forall x | x in branch ensures x in admitted + {branch[0]} { BranchMember(branch, fork, x); }
    }

    /** Writes the tip, then memory, then the undo data of the connected blocks. */
    method CommitTip(newTip: Hash, newHeight: nat, newWork: nat, connected: seq<(Hash, Undo)>,
                     ghost branch: seq<Hash>, ghost from: nat)
      requires UndoOk(c, p, disk.index, disk.undo) && Collected(branch, 0, connected) && MainEndsAt(newTip)
      requires disk.index[newTip].height == newHeight && disk.index[newTip].work == newWork
      modifies this`tipHash, this`tipHeight, this`tipWork, this`disk, this`log
      ensures disk == old(disk).(tip := Some(newTip), tipHeight := newHeight, undo := disk.undo) && old(log) <= log
      ensures UndoOk(c, p, disk.index, disk.undo) && disk.undo.Keys == old(disk).undo.Keys + HashSet(branch)
      ensures Ends()
      ensures tipHash == newTip && tipHeight == newHeight && ViewOk(c, p, disk.index, Memory())
      ensures old(SyncedAt(newTip, from)) && from <= |old(log)| ==>
                InSync() && Recoverable(c, p, disk) && AllRecoverable(c, p, log, from)
    {
      hide Good, CoinsAt, UndoAt, Recoverable, MainOk, HeightsOk, UndoOk, AllRecoverable;
      ghost var before, logged, sync := disk, log, SyncedAt(newTip, from) && from <= |log|;
      disk := disk.(tip := Some(newTip), tipHeight := newHeight);
      log := log + [disk];
      if sync {
        TipRecoverable(c, p, before, newTip);
        LogAppend(c, p, logged, from, disk);
      }
      tipHash, tipHeight, tipWork := newTip, newHeight, newWork;
      ghost var midLog := log;
      WriteUndoData(connected, branch);
      LogJoinIf(c, p, sync, midLog, log, from);
    }

    lemma {:induction false} GenesisOnMain()
      requires TreeOk(c, p, disk.index) && ViewOk(c, p, disk.index, Memory())
      ensures Linked(disk.index)
      ensures forall h :: h in disk.index && disk.index[h].height == 0 ==> OnMain(heightByHash, hashByHeight, h)
    {
      forall h | h in disk.index && disk.index[h].height == 0 ensures OnMain(heightByHash, hashByHeight, h) {
        OnlyGenesisAtZero(h);
      }
    }

    lemma {:induction false} ForkIsMain(fork: Hash, branch: seq<Hash>)
      requires ViewOk(c, p, disk.index, Memory()) && OnMain(heightByHash, hashByHeight, fork)
      requires BranchOk(disk.index, branch, fork)
      ensures fork in disk.index && disk.index[fork].height == heightByHash[fork] <= tipHeight
      ensures hashByHeight[heightByHash[fork]] == fork && branch != []
      ensures branch[0] in disk.index && At(tipHash)
      ensures MainOk(disk.index, hashByHeight, tipHeight, tipHash)
      ensures HeightsOk(disk.index, heightByHash, hashByHeight, tipHeight)
    {
    }

    lemma {:induction false} TipNotInBranch(branch: seq<Hash>)
      requires ViewOk(c, p, disk.index, Memory()) && branch != [] && OffMain(hashByHeight, branch[0])
      requires forall i :: 0 < i < |branch| ==> !OnMain(heightByHash, hashByHeight, branch[i])
      ensures tipHash !in branch
    {
      hide Good, CoinsAt;
    }

    lemma {:induction false} LogEmpty()
      ensures AllRecoverable(c, p, log, |log|)
    {
    }

    lemma {:induction false} BranchMember(branch: seq<Hash>, fork: Hash, x: Hash)
      requires BranchOk(disk.index, branch, fork) && ParentClosed(disk.index, admitted)
      requires Prev(disk.index[branch[0]]) in admitted && x in branch
      ensures x in admitted + {branch[0]}
    {
      var i :| 0 <= i < |branch| && branch[i] == x;
      if i > 0 { BranchAdmitted(branch, fork, i); }
    }

    // ------------------------------------------------------------------ validating a new block

    /** Walks back from a parent until the main chain, collecting the headers on the way. */
    method BuildAncestorLookup(parent: Hash, parentHeight: nat) returns (ancestors: map<nat, Header>)
      requires EnvOk(c, p) && TreeOk(c, p, disk.index) && ViewOk(c, p, disk.index, Memory())
      requires parent in disk.index && disk.index[parent].height == parentHeight
      ensures AgreeUpTo(Lookup(ancestors, hashByHeight, disk.index), OnPath(HeadersOf(Path(disk.index, parent))), parentHeight)
    {
      hide TreeOk, EnvOk, Good, MainOk, HeightsOk, HeadersOf, AgreeUpTo, Path, Linked, ViewOk;
      GenesisOnMain();
      ghost var ix := disk.index;
      var current := parent;
      var h: nat := parentHeight;
      ancestors := map[];
      WalkFrom(ix, parent);
      while !(h in hashByHeight && hashByHeight[h] == current)
        invariant 0 <= h <= parentHeight && current in ix && ix[current].height == h
        invariant Path(ix, parent)[..h + 1] == Path(ix, current)
        invariant forall i: nat :: i in ancestors <==> h < i <= parentHeight
        invariant forall i: nat :: i in ancestors ==> ancestors[i] == Path(ix, parent)[i].header
        decreases h
      {
        var header := disk.index[current].block.header;
        if h == 0 { MainIndex(current); }
        WalkStep(ix, parent, current);
        ancestors := ancestors[h := header];
        current := header.prevBlock;
        h := h - 1;
      }
      MainHeight(h);
      MainIsMain();
      LookupAgrees(ix, hashByHeight, tipHeight, tipHash, parent, current, ancestors);
    }

    static lemma {:induction false} WalkFrom(ix: Index, parent: Hash)
      requires Linked(ix) && parent in ix
      ensures |Path(ix, parent)| == ix[parent].height + 1 && Path(ix, parent)[..ix[parent].height + 1] == Path(ix, parent)
    {
    }

    static lemma {:induction false} WalkStep(ix: Index, parent: Hash, current: Hash)
      requires Linked(ix) && parent in ix && current in ix && 0 < ix[current].height <= ix[parent].height
      requires |Path(ix, parent)| == ix[parent].height + 1 && Path(ix, parent)[..ix[current].height + 1] == Path(ix, current)
      ensures var h, prev := ix[current].height, Prev(ix[current]);
              && prev in ix && ix[prev].height == h - 1 && Path(ix, parent)[h].header == ix[current].block.header
              && Path(ix, parent)[..h] == Path(ix, prev)
    {
      assert LinkedAt(ix, current);
      assert Path(ix, current)[..ix[current].height] == Path(ix, Prev(ix[current]));
      assert Path(ix, parent)[ix[current].height] == Path(ix, current)[ix[current].height];
    }

    lemma {:induction false} MainIndex(h: Hash)
      requires ViewOk(c, p, disk.index, Memory()) && OnMain(heightByHash, hashByHeight, h)
      ensures h in disk.index && disk.index[h].height in hashByHeight && hashByHeight[disk.index[h].height] == h
    {
    }

    lemma {:induction false} MainHeight(h: nat)
      requires ViewOk(c, p, disk.index, Memory())
      ensures h in hashByHeight <==> h <= tipHeight
    {
    }

    lemma {:induction false} MainIsMain()
      requires ViewOk(c, p, disk.index, Memory())
      ensures MainOk(disk.index, hashByHeight, tipHeight, tipHash)
    {
    }

    /** Header, timestamp and structure checks, through the ancestor lookup. */
    method CheckNewBlock(hash: Hash, block: Block, now: u32) returns (r: Option<Rec>)
      requires EnvOk(c, p) && TreeOk(c, p, disk.index) && ViewOk(c, p, disk.index, Memory())
      requires Sane(p) && Linked(disk.index) && block.header.prevBlock in disk.index && c.blockId(block.header) == hash
      ensures r.Some? <==> NewBlockOk(c, p, disk.index, hash, block, now)
      ensures r.Some? ==> r.value == ChildRec(disk.index, block) && Admissible(c, p, disk.index, hash, r.value)
    {
      hide EnvOk, TreeOk, ViewOk, MayFollow, StructureOk, PowOk, CalcNextBits, NotBefore, AgreeUpTo, Lookup, OnPath;
      var prev := block.header.prevBlock;
      var parent := disk.index[prev];
      var ancestors := BuildAncestorLookup(prev, parent.height);
      var getAncestor := Lookup(ancestors, hashByHeight, disk.index);
      MayFollowByLookup(p, HeadersOf(Path(disk.index, prev)), block.header, getAncestor);
      if block.header.bits != CalcNextBits(p, parent.block.header, parent.height, getAncestor) { return None; }
      if !PowOk(hash, block.header.bits) { return None; }
      var timely := ValidateHeaderTimestamp(p, block.header, parent.block.header, now, getAncestor, parent.height);
      if !timely { return None; }
      var wellFormed := ValidateBlockStructure(c, p, block, parent.height + 1);
      if !wellFormed { return None; }
      return Some(Rec(block, parent.height + 1, parent.work + CalcWork(block.header.bits)));
    }

    // --------------------------------------------------------------------- storing a new block

    /** Everything the crash argument promises of one step that began in sync. */
    ghost predicate LoggedFrom(from: nat)
      reads this
    {
      Recoverable(c, p, disk) && AllRecoverable(c, p, log, from)
    }

    /** Writes an index record; a record without undo data replaces one that had it. */
    method PutBlockIndex(hash: Hash, rec: Rec, undo: Option<Undo>)
      modifies this`disk, this`log
      ensures disk == old(disk).(index := old(disk).index[hash := rec],
                                 undo := if undo.Some? then old(disk).undo[hash := undo.value] else old(disk).undo - {hash})
      ensures log == old(log) + [disk]
    {
      disk := disk.(index := disk.index[hash := rec],
                    undo := if undo.Some? then disk.undo[hash := undo.value] else disk.undo - {hash});
      log := log + [disk];
    }

    lemma {:induction false} TipIsAdmitted()
      requires Valid()
      ensures tipHash in admitted && tipHash in disk.index && tipHash in heightByHash
      ensures disk.index[tipHash].height == tipHeight && disk.index[tipHash].work == tipWork
    {
      hide EnvOk, TreeOk, UndoOk, Good, CoinsAt;
      ViewFacts(c, p, disk.index, Memory());
    }

    lemma {:induction false} StartLogged()
      requires Consistent()
      ensures InSync() ==> LoggedFrom(|log|)
    {
      hide TreeOk, UndoOk, ViewOk;
      LogEmpty();
      if InSync() { SyncIsRecoverable(c, p, disk, Memory()); }
    }

    lemma {:induction false} UsableTip(d: Disk)
      requires Recoverable(c, p, d)
      ensures forall best, coins :: TipStored(c, p, d.(best := best, coins := coins))
    {
      hide TreeOk, UndoOk, Good, CoinsAt;
    }

    /** The store calls of an extension, in order: index with undo data, UTXO batch, tip. */
    method PersistExtension(hash: Hash, rec: Rec, r: Connected, ghost from: nat)
      requires var ix := disk.index[hash := rec];
               && TreeOk(c, p, ix) && Extends(disk.index, ix) && UndoOk(c, p, ix, disk.undo[hash := r.undo])
               && Linked(ix) && Good(c, p, ix, hash) && r.coins == CoinsAt(c, ix, hash)
      modifies this`disk, this`log
      ensures disk == Disk(old(disk).index[hash := rec], old(disk).undo[hash := r.undo], Some(hash), rec.height, Some(hash),
                           PersistConnect(c.txId, old(disk).coins, rec.block, r.coins, r.undo))
      ensures old(log) <= log && log != [] && log[|log| - 1] == disk
      ensures old(LoggedFrom(from)) && disk.coins == r.coins ==> LoggedFrom(from)
      ensures old(Recoverable(c, p, disk)) ==> (Recoverable(c, p, disk) <==> disk.coins == r.coins)
    {
      hide TreeOk, UndoOk, Good, CoinsAt, PersistConnect, Recoverable, AllRecoverable, Extends;
      ghost var sync := LoggedFrom(from) && PersistConnect(c.txId, disk.coins, rec.block, r.coins, r.undo) == r.coins;
      ghost var usable := Recoverable(c, p, disk);
      ghost var d0, l0 := disk, log;
      PutBlockIndex(hash, rec, Some(r.undo));
      if usable { IndexRecoverable(c, p, d0, disk.index, disk.undo); }
      if sync { LogAppend(c, p, l0, from, disk); }

      ghost var d1, l1 := disk, log;
      FlushBatch(PersistConnect(c.txId, disk.coins, rec.block, r.coins, r.undo), hash);
      if usable { BatchUsableIff(c, p, d1, hash, disk.coins); UsableTip(d1); }
      if sync { LogAppend(c, p, l1, from, disk); }

      ghost var d2, l2 := disk, log;
      disk := disk.(tip := Some(hash), tipHeight := rec.height);
      log := log + [disk];
      if usable { TipUsableIff(c, p, d2, hash); }
      if sync { LogAppend(c, p, l2, from, disk); }
    }

    /** Extends the main chain, or refuses the block without a trace. */
    method ExtendMain(hash: Hash, rec: Rec) returns (ok: bool)
      requires EnvOk(c, p) && Consistent() && Admissible(c, p, disk.index, hash, rec) && Prev(rec) == tipHash
      requires rec.block.transactions != []
      modifies this`tipHash, this`tipHeight, this`tipWork, this`heightByHash, this`hashByHeight, this`utxoSet, this`disk, this`log
      ensures Consistent()
      ensures ok <==> old(BlockInputsOk(c.verify, p, utxoSet, rec.height, rec.block))
      ensures !ok ==> Memory() == old(Memory()) && disk == old(disk) && log == old(log)
      ensures ok ==> disk.index == old(disk).index[hash := rec] && hash in disk.undo && old(log) <= log
      ensures ok ==> Memory() == old(Memory()).(tip := hash, height := rec.height, work := rec.work, coins := utxoSet,
                                                heightOf := old(heightByHash)[hash := rec.height],
                                                at := old(hashByHeight)[rec.height := hash])
      ensures old(MainHasUndo(hashByHeight, disk.undo)) ==> MainHasUndo(hashByHeight, disk.undo)
      ensures ok && old(Recoverable(c, p, disk)) ==>
                (Recoverable(c, p, disk) <==> AgreeAway(c.txId, old(disk).coins, old(utxoSet), rec.block))
      ensures ok ==> disk.best == Some(tipHash) && disk.tipHeight == tipHeight
      ensures ok ==> (InSync() <==> AgreeAway(c.txId, old(disk).coins, old(utxoSet), rec.block))
      ensures ok && old(InSync()) ==> InSync() && LoggedFrom(|old(log)|)
    {
      hide EnvOk, TreeOk, UndoOk, ViewOk, Admissible, Good, CoinsAt, UndoAt, Connect, BlockInputsOk, PersistConnect,
           Recoverable, AllRecoverable, OutputKeys, SpentSet, Extends, Linked, AgreeAway;
      var fees := ValidateTransactionInputs(c.verify, p, utxoSet, rec.height, rec.block);
      if fees.None? { return false; }
      ghost var from, sync := |log|, InSync();
      ExtendStep(c, p, disk.index, disk.undo, Memory(), hash, rec);
      StartLogged();
      var connected := Connect(c.txId, utxoSet, rec.block, rec.height).value;
      PersistExactIff(c.txId, disk.coins, utxoSet, rec.block, rec.height);
      AgreeWithItself(c.txId, utxoSet, rec.block);
      utxoSet := connected.coins;
      PersistExtension(hash, rec, connected, from);
      heightByHash := heightByHash[hash := rec.height];
      hashByHeight := hashByHeight[rec.height := hash];
      tipHash, tipHeight, tipWork := hash, rec.height, rec.work;
      return true;
    }

    /** Writes the index record of a block that does not extend the tip. Memory does not move. */
    method StoreAside(hash: Hash, rec: Rec)
      requires EnvOk(c, p) && Consistent() && Admissible(c, p, disk.index, hash, rec)
      modifies this`disk, this`log
      ensures Consistent() && disk == old(disk).(index := old(disk).index[hash := rec], undo := old(disk).undo - {hash})
      ensures ViewOk(c, p, disk.index, Memory().(heightOf := heightByHash[hash := rec.height]))
      ensures Extends(old(disk).index, disk.index) && old(log) <= log
      ensures old(InSync()) ==> InSync() && LoggedFrom(|old(log)|)
    {
      hide EnvOk, TreeOk, UndoOk, ViewOk, Admissible, Recoverable, AllRecoverable, Extends;
      ghost var from, sync, d := |log|, InSync(), disk;
      AdmitStep(c, p, disk.index, disk.undo, Memory(), hash, rec);
      StartLogged();
      ghost var logged := log;
      PutBlockIndex(hash, rec, None);
      UndoDrop(c, p, disk.index, d.undo, hash);
      if sync {
        IndexRecoverable(c, p, d, disk.index, disk.undo);
        LogAppend(c, p, logged, from, disk);
      }
    }

    // -------------------------------------------------------------------- one block, all cases

    ghost predicate BestTip()
      reads this
    {
      BestOf(disk.index, admitted, tipHash)
    }

    /** Every block of the main chain can be disconnected again. */
    ghost predicate Undoable()
      reads this
    {
      MainHasUndo(hashByHeight, disk.undo)
    }

    /** A tear is explained: undo data was missing to begin with, or a stored block is invalid. Only invalid blocks are not admitted. */
    twostate predicate Explained(torn: bool)
      reads this
    {
      && (old(Undoable()) ==> Undoable())
      && (torn && old(Undoable()) ==> HasBad(c, p, disk.index))
      && (HasBad(c, p, old(disk).index) ==> HasBad(c, p, disk.index))
      && (old(Undoable()) && OnlyBadLeft(c, p, old(disk).index, old(admitted)) ==> OnlyBadLeft(c, p, disk.index, admitted))
    }

    /** From sync, every disk logged up to the first tear can be started from; without a tear disk equals memory again. */
    twostate predicate Survives(s: Safety)
      reads this
    {
      old(InSync()) ==> SafeLog(c, p, log, |old(log)|, s) && (!s.torn ==> InSync() && Recoverable(c, p, disk))
    }

    /** The first store call and the last: a step that began in sync logged only disks to start from. */
    method AcceptExtension(hash: Hash, rec: Rec) returns (ok: bool)
      requires Valid() && Admissible(c, p, disk.index, hash, rec) && Prev(rec) == tipHash && rec.block.transactions != []
      modifies this`tipHash, this`tipHeight, this`tipWork, this`heightByHash, this`hashByHeight, this`utxoSet,
               this`disk, this`log, this`admitted
      ensures Valid() && Extends(old(disk).index, disk.index) && old(log) <= log
      ensures ok <==> old(BlockInputsOk(c.verify, p, utxoSet, rec.height, rec.block))
      ensures !ok ==> Memory() == old(Memory()) && disk == old(disk) && log == old(log) && admitted == old(admitted)
      ensures ok ==> tipHash == hash && admitted == old(admitted) + {hash} && disk.index == old(disk).index[hash := rec]
      ensures ok ==> hashByHeight == old(hashByHeight)[rec.height := hash] && heightByHash == old(heightByHash)[hash := rec.height]
      ensures old(MainHasUndo(hashByHeight, disk.undo)) ==> MainHasUndo(hashByHeight, disk.undo)
      ensures ok && old(BestTip()) && rec.work > old(tipWork) ==> BestTip()
      ensures ok && old(Recoverable(c, p, disk)) ==>
                (Recoverable(c, p, disk) <==> AgreeAway(c.txId, old(disk).coins, old(utxoSet), rec.block))
      ensures ok ==> disk.best == Some(tipHash) && disk.tipHeight == tipHeight
      ensures ok ==> (InSync() <==> AgreeAway(c.txId, old(disk).coins, old(utxoSet), rec.block))
      ensures ok && old(InSync()) ==> InSync() && LoggedFrom(|old(log)|)
    {
      hide EnvOk, TreeOk, UndoOk, ViewOk, Admissible, Recoverable, AllRecoverable, Extends, OrphansOk, ParentClosed, BestOf,
           BlockInputsOk, Beats, Linked, CalcWork, MainHasUndo, AgreeAway;
      TipIsAdmitted();
      AdmissionFacts(hash, rec);
      ghost var ix, tip := disk.index, tipHash;
      ok := ExtendMain(hash, rec);
      if ok {
        AdmitOne(c, p, ix, admitted, hash, rec);
        if BestOf(ix, admitted, tip) && rec.work > ix[tip].work {
          BestOfStable(ix, disk.index, admitted, tip);
          WinnerBeats(disk.index, tip, hash);
          AdmitWinner(disk.index, admitted, tip, hash);
        }
        admitted := admitted + {hash};
      }
    }

    lemma {:induction false} AdmissionFacts(hash: Hash, rec: Rec)
      requires EnvOk(c, p) && Consistent() && Admissible(c, p, disk.index, hash, rec)
      ensures Extends(disk.index, disk.index[hash := rec]) && Extends(disk.index, disk.index)
      ensures Prev(rec) in disk.index && Prev(rec) != hash && rec.height > 0 && rec.height == disk.index[Prev(rec)].height + 1
      ensures rec.work == disk.index[Prev(rec)].work + CalcWork(rec.block.header.bits)
    {
      hide TreeOk, UndoOk, ViewOk, StructureOk, MayFollow, EnvOk;
      AdmitStep(c, p, disk.index, disk.undo, Memory(), hash, rec);
      TreeIsLinked(c, p, disk.index);
    }

    static lemma {:induction false} WinnerBeats(ix: Index, tip: Hash, h: Hash)
      ensures tip in ix && h in ix && ix[h].work > ix[tip].work ==> Beats(ix[h].work, h, ix[tip].work, tip)
    {
    }

    /** Stores a block with too little work beside the main chain. */
    method AcceptSide(hash: Hash, rec: Rec)
      requires Valid() && Admissible(c, p, disk.index, hash, rec) && Prev(rec) in admitted && OffMain(hashByHeight, hash)
      modifies this`heightByHash, this`disk, this`log, this`admitted
      ensures Valid() && Extends(old(disk).index, disk.index) && old(log) <= log
      ensures disk.index == old(disk).index[hash := rec] && admitted == old(admitted) + {hash}
      ensures Memory() == old(Memory()).(heightOf := old(heightByHash)[hash := rec.height])
      ensures old(MainHasUndo(hashByHeight, disk.undo)) ==> MainHasUndo(hashByHeight, disk.undo)
      ensures old(BestTip()) && !Beats(rec.work, hash, tipWork, tipHash) ==> BestTip()
      ensures InSync() <==> old(InSync())
      ensures old(InSync()) ==> InSync() && LoggedFrom(|old(log)|)
    {
      hide EnvOk, TreeOk, UndoOk, ViewOk, Admissible, Recoverable, AllRecoverable, Extends, OrphansOk, ParentClosed, BestOf,
           Beats, Linked, CalcWork, MainHasUndo, OffMain;
      AdmissionFacts(hash, rec);
      TipIsAdmitted();
      ghost var ix := disk.index;
      AdmitOne(c, p, ix, admitted, hash, rec);
      DropOffMain(hashByHeight, disk.undo, hash);
      StoreAside(hash, rec);
      if BestOf(ix, admitted, tipHash) && !Beats(rec.work, hash, tipWork, tipHash) {
        BestOfStable(ix, disk.index, admitted, tipHash);
        TipWorkStable(ix);
        AdmitLoser(disk.index, admitted, tipHash, hash);
      }
      heightByHash := heightByHash[hash := rec.height];
      admitted := admitted + {hash};
    }

    lemma {:induction false} TipWorkStable(ix: Index)
      requires Extends(ix, disk.index) && tipHash in ix && ix[tipHash].work == tipWork
      ensures tipHash in disk.index && disk.index[tipHash].work == tipWork
    {
    }

    /** Forgetting a block off the main chain keeps memory consistent. */
    lemma {:induction false} ForgetOffMain(h: Hash)
      requires ViewOk(c, p, disk.index, Memory()) && OffMain(hashByHeight, h)
      ensures ViewOk(c, p, disk.index, Memory().(heightOf := heightByHash - {h}))
    {
      hide Good, CoinsAt;
    }

    /** What a switch to a stored block leaves in memory, given the memory it starts from. */
    ghost predicate Switched(r: ReorgResult, v: View, hash: Hash, fromPool: bool)
      reads this
    {
      && hash in disk.index
      && match r
         case TooDeep => Memory() == v.(heightOf := v.heightOf[hash := disk.index[hash].height])
         case Failed => Memory() == v.(heightOf := if fromPool then v.heightOf - {hash} else v.heightOf)
         case Done => tipHash == hash && Rehung(v.heightOf, v.at, heightByHash, hashByHeight, ForkBelow(disk.index, v, hash))
    }

    /** Switches to a stored block; `fromPool` enters it in the height index first and takes it out again on failure. */
    method SwitchTo(hash: Hash, rec: Rec, fromPool: bool) returns (r: ReorgResult)
      requires EnvOk(c, p) && Consistent() && ParentClosed(disk.index, admitted) && OffMain(hashByHeight, hash)
      requires hash in disk.index && disk.index[hash] == rec && rec.height > 0
      requires Prev(rec) in disk.index && Prev(rec) in admitted
      requires ViewOk(c, p, disk.index, Memory().(heightOf := heightByHash[hash := rec.height]))
      modifies this`tipHash, this`tipHeight, this`tipWork, this`heightByHash, this`hashByHeight, this`utxoSet, this`disk, this`log
      ensures Consistent() && disk.index == old(disk).index && old(log) <= log
      ensures r == SwitchResult(c, p, disk.index, old(disk).undo, old(Memory()), hash)
      ensures Switched(r, old(Memory()), hash, fromPool)
      ensures InSync() <==> SyncAfterSwitch(c, p, disk.index, old(disk).undo, old(Memory()), hash, old(disk).coins, old(InSync()))
      ensures r.Done? ==> disk.best == Some(tipHash) && disk.tipHeight == tipHeight
      ensures r.Done? ==> heightByHash.Keys <= old(heightByHash).Keys + admitted + {hash}
      ensures old(MainHasUndo(hashByHeight, disk.undo)) ==> MainHasUndo(hashByHeight, disk.undo)
      ensures old(InSync()) ==>
                && LoggedFrom(|old(log)|) && (!r.Failed? ==> InSync())
                && (r.Failed? ==> if Idle(c, p, disk.index, old(disk).undo, old(Memory()), hash) then InSync() else disk.best != disk.tip)
                && (r.Failed? ==> disk == old(disk).(best := Some(StopAt(c, p, disk.index, disk.undo, old(Memory()), hash)), coins := disk.coins))
    {
      hide EnvOk, TreeOk, UndoOk, ViewOk, Recoverable, AllRecoverable, ParentClosed, Good, MainHasUndo, MainAncestor, BranchRoot,
           Linked, OffMain, SwitchResult, Idle, ForkBelow, Rehung, StopAt, SyncAfterSwitch;
      ghost var v := Memory();
      TreeIsLinked(c, p, disk.index);
      EnteredTwice(heightByHash, hash, rec.height);
      r := TrySwitch(hash, rec, fromPool);
      if r.TooDeep? {
        heightByHash := heightByHash[hash := rec.height];
      } else if r.Failed? && fromPool {
        ForgetOffMain(hash);
        heightByHash := heightByHash - {hash};
      } else if r.Done? {
        NewTipAbove(v, hash, rec.height, fromPool);
      }
    }

    /** The switch itself, with the block already entered or not. */
    method TrySwitch(hash: Hash, rec: Rec, fromPool: bool) returns (r: ReorgResult)
      requires EnvOk(c, p) && Consistent() && ParentClosed(disk.index, admitted) && OffMain(hashByHeight, hash)
      requires hash in disk.index && disk.index[hash] == rec && rec.height > 0
      requires Prev(rec) in disk.index && Prev(rec) in admitted
      requires ViewOk(c, p, disk.index, Memory().(heightOf := heightByHash[hash := rec.height]))
      modifies this`tipHash, this`tipHeight, this`tipWork, this`heightByHash, this`hashByHeight, this`utxoSet, this`disk, this`log
      ensures Consistent() && disk.index == old(disk).index && old(log) <= log
      ensures r == SwitchResult(c, p, disk.index, old(disk).undo, old(Memory()), hash)
      ensures !r.Done? ==>
                Memory() == old(Memory()).(heightOf := if fromPool then old(heightByHash)[hash := rec.height] else old(heightByHash))
      ensures r.Done? ==>
                && tipHash == hash && disk.best == Some(tipHash) && disk.tipHeight == tipHeight
                && Rehung(if fromPool then old(heightByHash)[hash := rec.height] else old(heightByHash), old(hashByHeight),
                          heightByHash, hashByHeight, ForkBelow(disk.index, old(Memory()), hash))
      ensures InSync() <==> SyncAfterSwitch(c, p, disk.index, old(disk).undo, old(Memory()), hash, old(disk).coins, old(InSync()))
      ensures r.Done? ==> heightByHash.Keys <= old(heightByHash).Keys + admitted + {hash}
      ensures old(MainHasUndo(hashByHeight, disk.undo)) ==> MainHasUndo(hashByHeight, disk.undo)
      ensures old(InSync()) ==>
                && LoggedFrom(|old(log)|) && (!r.Failed? ==> InSync())
                && (r.Failed? ==> if Idle(c, p, disk.index, old(disk).undo, old(Memory()), hash) then InSync() else disk.best != disk.tip)
                && (r.Failed? ==> disk == old(disk).(best := Some(StopAt(c, p, disk.index, disk.undo, old(Memory()), hash)), coins := disk.coins))
    {
      hide EnvOk, TreeOk, UndoOk, ViewOk, Recoverable, AllRecoverable, ParentClosed, Good, MainHasUndo, MainAncestor, BranchRoot,
           Linked, OffMain, SwitchResult, Idle, ForkBelow, Rehung, StopAt, SyncAfterSwitch, SwitchTouches;
      StartLogged();
      ghost var v := Memory();
      TreeIsLinked(c, p, disk.index);
      SwitchStable(c, p, disk.index, disk.undo, v, hash, rec.height);
      SyncStable(c, p, disk.index, disk.undo, v, hash, rec.height, disk.coins, InSync());
      if fromPool { heightByHash := heightByHash[hash := rec.height]; }
      r := Reorg(hash, rec.height, rec.work);
    }

    static lemma {:induction false} EnteredTwice(heightOf: map<Hash, nat>, h: Hash, n: nat)
      ensures heightOf[h := n][h := n] == heightOf[h := n] && heightOf[h := n] - {h} == heightOf - {h}
    {
    }

    /** The new tip is on the main chain above the fork, so entering it first made no difference. */
    lemma {:induction false} NewTipAbove(v: View, hash: Hash, n: nat, fromPool: bool)
      requires ViewOk(c, p, disk.index, Memory()) && tipHash == hash && Linked(disk.index)
      requires hash in disk.index && disk.index[hash].height > 0 && Prev(disk.index[hash]) in disk.index
      requires Rehung(if fromPool then v.heightOf[hash := n] else v.heightOf, v.at, heightByHash, hashByHeight, ForkBelow(disk.index, v, hash))
      ensures Rehung(v.heightOf, v.at, heightByHash, hashByHeight, ForkBelow(disk.index, v, hash))
    {
      hide Good, CoinsAt, Linked;
      ForkNotAbove(disk.index, v, Prev(disk.index[hash]));
      assert LinkedAt(disk.index, hash);
      assert tipHeight in hashByHeight && hashByHeight[tipHeight] == hash;
      assert hash in MainAbove(hashByHeight, ForkBelow(disk.index, v, hash));
    }

    /** Stores a block that beats the tip and tries to switch to it. */
    method AcceptReorg(hash: Hash, rec: Rec, fromPool: bool) returns (r: ReorgResult)
      requires Valid() && Admissible(c, p, disk.index, hash, rec) && Prev(rec) in admitted && OffMain(hashByHeight, hash)
      modifies this`tipHash, this`tipHeight, this`tipWork, this`heightByHash, this`hashByHeight, this`utxoSet,
               this`disk, this`log, this`admitted
      ensures Valid() && disk.index == old(disk).index[hash := rec] && Extends(old(disk).index, disk.index) && old(log) <= log
      ensures admitted == if r.Failed? then old(admitted) else old(admitted) + {hash}
      ensures r == SwitchResult(c, p, disk.index, old(disk).undo, old(Memory()), hash)
      ensures Switched(r, old(Memory()), hash, fromPool)
      ensures InSync() <==> SyncAfterSwitch(c, p, disk.index, old(disk).undo, old(Memory()), hash, old(disk).coins, old(InSync()))
      ensures r.Done? ==> disk.best == Some(tipHash) && disk.tipHeight == tipHeight
      ensures ForkBelow(disk.index, old(Memory()), hash) == ForkOf(old(disk).index, old(Memory()), rec.block)
      ensures old(MainHasUndo(hashByHeight, disk.undo)) ==> MainHasUndo(hashByHeight, disk.undo)
      ensures old(BestTip()) && Beats(rec.work, hash, old(tipWork), old(tipHash)) ==> (BestTip() <==> !r.TooDeep?)
      ensures old(InSync()) ==>
                && LoggedFrom(|old(log)|) && (!r.Failed? ==> InSync())
                && (r.Failed? ==> if Idle(c, p, disk.index, old(disk).undo, old(Memory()), hash) then InSync() else disk.best != disk.tip)
                && (r.Failed? ==> Torn(c, p, old(disk), old(Memory()), hash, rec, disk))
    {
      hide EnvOk, TreeOk, UndoOk, ViewOk, Admissible, Recoverable, AllRecoverable, Extends, OrphansOk, ParentClosed, BestOf,
           Good, MainHasUndo, OffMain, Beats, Linked, CalcWork, SwitchResult, Idle, ForkBelow, Rehung, SyncAfterSwitch, ForkOf, Torn;
      AdmissionFacts(hash, rec);
      TipIsAdmitted();
      ghost var ix, tip := disk.index, tipHash;
      ghost var best := BestTip() && Beats(rec.work, hash, tipWork, tipHash);
      AdmitOne(c, p, ix, admitted, hash, rec);
      ParentClosedStable(ix, disk.index[hash := rec], admitted);
      r := StoreAndSwitch(hash, rec, fromPool);
      NewBest(ix, tip, hash, best);
      if !r.Failed? { admitted := admitted + {hash}; }
    }

    /** Both store steps, before the block is counted as admitted. */
    method StoreAndSwitch(hash: Hash, rec: Rec, fromPool: bool) returns (r: ReorgResult)
      requires EnvOk(c, p) && Consistent() && Admissible(c, p, disk.index, hash, rec) && Prev(rec) in admitted && OffMain(hashByHeight, hash)
      requires ParentClosed(disk.index[hash := rec], admitted)
      modifies this`tipHash, this`tipHeight, this`tipWork, this`heightByHash, this`hashByHeight, this`utxoSet, this`disk, this`log
      ensures Consistent() && disk.index == old(disk).index[hash := rec] && Extends(old(disk).index, disk.index) && old(log) <= log
      ensures r.Done? ==> heightByHash.Keys <= old(heightByHash).Keys + admitted + {hash}
      ensures r == SwitchResult(c, p, disk.index, old(disk).undo, old(Memory()), hash)
      ensures Switched(r, old(Memory()), hash, fromPool)
      ensures InSync() <==> SyncAfterSwitch(c, p, disk.index, old(disk).undo, old(Memory()), hash, old(disk).coins, old(InSync()))
      ensures r.Done? ==> disk.best == Some(tipHash) && disk.tipHeight == tipHeight
      ensures ForkBelow(disk.index, old(Memory()), hash) == ForkOf(old(disk).index, old(Memory()), rec.block)
      ensures old(MainHasUndo(hashByHeight, disk.undo)) ==> MainHasUndo(hashByHeight, disk.undo)
      ensures old(InSync()) ==>
                && LoggedFrom(|old(log)|) && (!r.Failed? ==> InSync())
                && (r.Failed? ==> if Idle(c, p, disk.index, old(disk).undo, old(Memory()), hash) then InSync() else disk.best != disk.tip)
                && (r.Failed? ==> Torn(c, p, old(disk), old(Memory()), hash, rec, disk))
    {
      hide EnvOk, TreeOk, UndoOk, ViewOk, Admissible, Recoverable, AllRecoverable, Extends, ParentClosed,
           Good, MainHasUndo, OffMain, Linked, CalcWork, SwitchResult, Idle, ForkBelow, Rehung, ForkHeight, StopAt, SyncAfterSwitch;
      AdmissionFacts(hash, rec);
      ghost var ix, undo, v, from, sync := disk.index, disk.undo, Memory(), |log|, InSync();
      DropOffMain(hashByHeight, disk.undo, hash);
      StoreAside(hash, rec);
      MainTip(ix, v);
      SwitchSame(c, p, ix, disk.index, undo, v, hash);
      SyncSame(c, p, ix, disk.index, undo, v, hash, disk.coins, InSync());
      ghost var midLog := log;
      r := SwitchTo(hash, rec, fromPool);
      LogJoinIf(c, p, sync, midLog, log, from);
    }

    lemma {:induction false} MainTip(ix: Index, v: View)
      requires ViewOk(c, p, ix, v) && TreeOk(c, p, disk.index)
      ensures Linked(ix) && Linked(disk.index) && v.height in v.at && v.at[v.height] == v.tip
    {
      hide Good, CoinsAt, TreeOk, Linked;
      TreeIsLinked(c, p, disk.index);
      ViewFacts(c, p, ix, v);
    }

    /** Keeping or replacing the best tip, once the new block is in the tree. */
    lemma {:induction false} NewBest(ix: Index, tip: Hash, h: Hash, best: bool)
      requires Extends(ix, disk.index) && h in disk.index && tip in ix
      requires best ==> BestOf(ix, admitted, tip) && Beats(disk.index[h].work, h, ix[tip].work, tip)
      ensures best ==> BestOf(disk.index, admitted, tip) && BestOf(disk.index, admitted + {h}, h)
      ensures best ==> !BestOf(disk.index, admitted + {h}, tip)
    {
      if best {
        BestOfStable(ix, disk.index, admitted, tip);
        AdmitWinner(disk.index, admitted, tip, h);
        BytesLessTrichotomy(h, tip);
        assert h in admitted + {h};
      }
    }

    lemma {:induction false} ValidFacts(prev: Hash)
      requires Valid() && prev in heightByHash
      ensures Linked(disk.index) && Sane(p) && prev in disk.index && prev in admitted
      ensures disk.index[prev].height == heightByHash[prev]
      ensures tipHash in disk.index && disk.index[tipHash].height == tipHeight && disk.index[tipHash].work == tipWork
    {
      hide Good, CoinsAt, UndoOk;
      ViewFacts(c, p, disk.index, Memory());
    }

    /**
     * The common body of ProcessBlock and processOrphans for a block with a known parent.
     * `fromPool` marks the orphan path, which enters the height index before it tries the reorganisation.
     */
    method AcceptBlock(hash: Hash, block: Block, now: u32, fromPool: bool) returns (r: Outcome)
      requires Valid() && c.blockId(block.header) == hash && block.header.prevBlock in heightByHash
      requires OffMain(hashByHeight, hash) && Linked(disk.index) && Sane(p) && block.header.prevBlock in disk.index
      modifies this`tipHash, this`tipHeight, this`tipWork, this`heightByHash, this`hashByHeight, this`utxoSet,
               this`disk, this`log, this`admitted
      ensures Valid() && old(log) <= log && Extends(old(disk).index, disk.index)
      ensures r == Due(c, p, old(disk).index, old(disk).undo, old(Memory()), hash, block, now)
      ensures r.Rejected? ==> Memory() == old(Memory()) && disk == old(disk) && log == old(log)
      ensures !r.Rejected? ==> disk.index == old(disk).index[hash := ChildRec(old(disk).index, block)]
      ensures admitted == if Admits(r) then old(admitted) + {hash} else old(admitted)
      ensures r.Extended? ==> tipHash == hash && hashByHeight == old(hashByHeight)[old(tipHeight) + 1 := hash]
      ensures r.Extended? ==> heightByHash == old(heightByHash)[hash := old(tipHeight) + 1]
      ensures r.Reorganized? ==> tipHash == hash
      ensures r.Reorganized? ==>
                Rehung(old(heightByHash), old(hashByHeight), heightByHash, hashByHeight, ForkOf(old(disk).index, old(Memory()), block))
      ensures r.SideChain? || r.DeepSideChain? ==>
                Memory() == old(Memory()).(heightOf := old(heightByHash)[hash := ChildRec(old(disk).index, block).height])
      ensures r.ReorgFailed? ==>
                Memory() == old(Memory()).(heightOf := if fromPool then old(heightByHash) - {hash} else old(heightByHash))
      ensures old(MainHasUndo(hashByHeight, disk.undo)) ==> MainHasUndo(hashByHeight, disk.undo)
      ensures old(BestTip()) && WorkCounts(c, p, block) ==> (BestTip() <==> !r.DeepSideChain?)
      ensures r.Extended? && old(Recoverable(c, p, disk)) ==>
                (Recoverable(c, p, disk) <==> AgreeAway(c.txId, old(disk).coins, old(utxoSet), block))
      ensures InSync() <==> SyncDue(c, p, old(disk).index, old(disk).undo, old(Memory()), hash, block, now, old(disk).coins, old(InSync()))
      ensures r.Extended? || r.Reorganized? ==> disk.best == Some(tipHash) && (Recoverable(c, p, disk) <==> InSync())
      ensures old(InSync()) ==>
                && LoggedFrom(|old(log)|) && (!r.ReorgFailed? ==> InSync())
                && (r.ReorgFailed? ==> Torn(c, p, old(disk), old(Memory()), hash, ChildRec(old(disk).index, block), disk))
                && (r.ReorgFailed? ==> if Idle(c, p, disk.index, old(disk).undo, old(Memory()), hash) then InSync() else disk.best != disk.tip)
    {
      hide EnvOk, TreeOk, UndoOk, ViewOk, Admissible, Recoverable, AllRecoverable, Extends, OrphansOk, ParentClosed, BestOf,
           Good, MainHasUndo, OffMain, Beats, Linked, CalcWork, NewBlockOk, BlockInputsOk, Sane, WorkCounts, MainAncestor,
           SwitchResult, Idle, ForkBelow, ForkOf, Rehung, AgreeAway, Due, Torn, SyncAfterSwitch, SyncDue;
      var prev := block.header.prevBlock;
      ValidFacts(prev);
      ExtendsItself(disk.index);
      StartLogged();
      ghost var ix, undo, v := disk.index, disk.undo, Memory();
      DueOtherwise(c, p, ix, undo, v, hash, block, now);
      SyncOtherwise(c, p, ix, undo, v, hash, block, now, disk.coins, InSync());
      var checked := CheckNewBlock(hash, block, now);
      if checked.None? { return Rejected; }
      var rec := checked.value;
      RecFacts(hash, rec);
      if WorkCounts(c, p, block) { AcceptedWork(hash, block, now); }
      if prev == tipHash {
        var ok := AcceptExtension(hash, rec);
        if ok { UsableIffSync(); }
        return if ok then Extended else Rejected;
      } else if Beats(rec.work, hash, tipWork, tipHash) {
        var result := AcceptReorg(hash, rec, fromPool);
        DueBySwitch(c, p, ix, undo, v, hash, block, now);
        SyncBySwitch(c, p, ix, undo, v, hash, block, now, old(disk).coins, old(InSync()));
        if result.Done? { UsableIffSync(); }
        return OutcomeOf(result);
      } else {
        AcceptSide(hash, rec);
        return SideChain;
      }
    }

    /** With tip and best both at the tip in memory, a disk is usable exactly when it equals memory. */
    lemma {:induction false} UsableIffSync()
      requires Consistent() && disk.best == Some(tipHash) && disk.tipHeight == tipHeight
      ensures Recoverable(c, p, disk) <==> InSync()
    {
      hide TreeOk, UndoOk, Good, CoinsAt;
      ViewFacts(c, p, disk.index, Memory());
    }

    lemma {:induction false} AcceptedWork(hash: Hash, block: Block, now: u32)
      requires TreeOk(c, p, disk.index) && Linked(disk.index) && Sane(p) && block.header.prevBlock in disk.index
      requires c.blockId(block.header) == hash && NewBlockOk(c, p, disk.index, hash, block, now) && WorkCounts(c, p, block)
      ensures CalcWork(block.header.bits) > 0
    {
      hide TreeOk, MayFollow, CalcWork, PowOk, StructureOk, NotTooFuture;
      if PositiveLimit(c, p) { LimitGivesWork(c, p, disk.index, block.header.prevBlock, block.header); }
    }

    lemma {:induction false} RecFacts(hash: Hash, rec: Rec)
      requires EnvOk(c, p) && Consistent() && Admissible(c, p, disk.index, hash, rec)
      ensures rec.block.transactions != [] && Prev(rec) in disk.index && rec.height == disk.index[Prev(rec)].height + 1
      ensures rec.work == disk.index[Prev(rec)].work + CalcWork(rec.block.header.bits)
    {
      hide TreeOk, UndoOk, ViewOk, MayFollow, EnvOk, CalcWork;
    }

    // ---------------------------------------------------------------------------- orphans

    /** Takes the children of a block out of the pool, in byte order of their hashes. */
    method TakeChildren(parent: Hash) returns (entries: seq<OrphanEntry>)
      modifies this`orphans
      ensures orphans == Others(old(orphans), parent) && IsListing(entries, old(orphans), parent)
      ensures |orphans| + |entries| == |old(orphans)|
    {
      var pool := orphans;
      var children := set h | h in pool && pool[h].header.prevBlock == parent;
      var order := SortHashes(children);
      assert forall i :: 0 <= i < |order| ==> order[i] in HashSet(order);
      entries := seq(|order|, i requires 0 <= i < |order| => OrphanEntry(order[i], pool[order[i]]));
      assert EntryHashes(entries) == order;
      orphans := pool - children;
      PoolSplits(pool, children);
      assert orphans == Others(pool, parent);
    }

    /** One orphan whose parent has been connected. */
    method HandleOrphan(entry: OrphanEntry, parent: Hash, queue0: seq<Hash>, now: u32)
      returns (queue: seq<Hash>, outcome: Option<Outcome>, ghost s: Safety)
      requires Valid() && QueueOk(disk.index, Memory(), queue0) && parent !in queue0
      requires EntriesOk(c, hashByHeight, parent, [entry], queue0)
      modifies this`tipHash, this`tipHeight, this`tipWork, this`heightByHash, this`hashByHeight, this`utxoSet,
               this`disk, this`log, this`admitted
      ensures Valid() && old(log) <= log && Extends(old(disk).index, disk.index)
      ensures outcome == if parent in old(heightByHash)
                         then Some(Due(c, p, old(disk).index, old(disk).undo, old(Memory()), entry.hash, entry.block, now)) else None
      ensures queue == QueueAfter(queue0, entry.hash, outcome) && QueueOk(disk.index, Memory(), queue)
      ensures admitted == if outcome.Some? && Admits(outcome.value) then old(admitted) + {entry.hash} else old(admitted)
      ensures outcome.Some? ==>
                && Fated(c, p, disk.index, admitted, old(Undoable()), entry.hash, entry.block, now)
                && DueAt(c, p, old(disk), entry.hash, entry.block, now, outcome.value)
                && AllKnownBy(disk.index, old(heightByHash).Keys, [Event(entry.hash, entry.block, Newest(old(log)), outcome.value)],
                              heightByHash.Keys)
      ensures outcome != Some(Reorganized) ==> StaysKnown(old(heightByHash), heightByHash, entry.hash)
      ensures outcome != Some(Reorganized) ==> forall x :: x != entry.hash && OffMain(old(hashByHeight), x) ==> OffMain(hashByHeight, x)
      ensures p.maxReorgDepth == 0 ==> outcome != Some(DeepSideChain)
      ensures old(BestTip()) && p.maxReorgDepth == 0 && WorkCounts(c, p, entry.block) ==> BestTip()
      ensures Explained(s.torn) && Survives(s)
    {
      hide EnvOk, TreeOk, UndoOk, ViewOk, Recoverable, Extends, AdmittedOk, BestOf, SafeLog, StaysKnown, Frontier,
           MainHasUndo, Linked, WorkCounts, OffMain, HasBad, OnlyBadLeft, Due, Fated, AllRecoverable, DueAt, AllKnownBy;
      var hash, block := entry.hash, entry.block;
      assert [entry][0] == entry;
      ghost var ix, v, n := disk.index, Memory(), tipHeight;
      StartValid();
      if block.header.prevBlock !in heightByHash {
        s := Safety(|log|, false);
        SafeNow();
        KnownItself(heightByHash, hash);
        return queue0, None, s;
      }
      var r;
      ghost var e;
      r, e, s := AdmitKnown(hash, block, now, true);
      if r.Extended? {
        QueueExtend(ix, disk.index, v, Memory(), n + 1, queue0, hash);
      } else if r.Reorganized? {
        TipKnown();
      } else {
        QueueStable(ix, disk.index, v, Memory(), queue0, hash);
        if r.SideChain? { QueuePush(disk.index, Memory(), queue0, hash); }
      }
      return QueueAfter(queue0, hash, Some(r)), Some(r), s;
    }

    static lemma {:induction false} KnownItself(heightOf: map<Hash, nat>, h: Hash)
      ensures StaysKnown(heightOf, heightOf, h)
    {
    }

    lemma {:induction false} ValidView()
      requires Valid()
      ensures ViewOk(c, p, disk.index, Memory())
    {
    }

    lemma {:induction false} TipKnown()
      requires Valid()
      ensures QueueOk(disk.index, Memory(), [tipHash]) && Frontier(disk.index, Memory(), tipHash)
    {
      hide EnvOk, TreeOk, UndoOk, ViewOk, OffMain;
      ViewFacts(c, p, disk.index, Memory());
    }

    lemma {:induction false} StartValid()
      requires Valid()
      ensures Linked(disk.index) && Extends(disk.index, disk.index)
      ensures InSync() ==> Recoverable(c, p, disk) && AllRecoverable(c, p, log, |log|)
    {
      hide EnvOk, TreeOk, UndoOk, ViewOk, Recoverable, AllRecoverable, Linked;
      TreeIsLinked(c, p, disk.index);
      StartLogged();
    }

    /** The explanation of a failed switch, for one block. */
    lemma {:induction false} ExplainOutcome(ix: Index, known: set<Hash>, undoable: bool, hash: Hash, failed: bool)
      requires Linked(ix) && Valid() && Extends(ix, disk.index) && known <= admitted
      requires failed ==> hash in disk.index && (!undoable || !Good(c, p, disk.index, hash))
      requires disk.index.Keys <= ix.Keys + {hash} && (hash in disk.index ==> hash in admitted || hash in ix || failed)
      ensures failed && undoable ==> HasBad(c, p, disk.index)
      ensures HasBad(c, p, ix) ==> HasBad(c, p, disk.index)
      ensures undoable && OnlyBadLeft(c, p, ix, known) ==> OnlyBadLeft(c, p, disk.index, admitted)
    {
      hide EnvOk, TreeOk, UndoOk, ViewOk, Good, Linked, Extends, MainHasUndo, OnlyBadLeft;
      TreeIsLinked(c, p, disk.index);
      if HasBad(c, p, ix) { BadStays(c, p, ix, disk.index); }
      if undoable && OnlyBadLeft(c, p, ix, known) { OnlyBadStays(c, p, ix, disk.index, known, admitted, hash); }
    }

    lemma {:induction false} SafeNow()
      requires Valid()
      ensures InSync() ==> SafeLog(c, p, log, |log|, Safety(|log|, false))
    {
      hide Valid, Recoverable, AllRecoverable, SafeLog;
      StartValid();
      if InSync() { SafeSoFar(c, p, log, |log|, false); }
    }

    static lemma {:induction false} ExtendsTwice(a: Index, b: Index, d: Index)
      requires Extends(a, b) && Extends(b, d)
      ensures Extends(a, d)
    {
    }

    /** Every orphan of the list carries work. */
    ghost predicate AllWork(entries: seq<OrphanEntry>) {
      forall i :: 0 <= i < |entries| ==> WorkCounts(c, p, entries[i].block)
    }

    /** Handles the listed children of one parent, stopping at the first reorganisation. */
    method ProcessChildren(entries: seq<OrphanEntry>, parent: Hash, queue0: seq<Hash>, clock: Hash -> u32)
      returns (queue: seq<Hash>, ghost es: seq<Event>, ghost s: Safety)
      requires Valid() && QueueOk(disk.index, Memory(), queue0) && parent !in queue0 && parent in heightByHash
      requires EntriesOk(c, hashByHeight, parent, entries, queue0) && parent !in EntryHashes(entries)
      modifies this`tipHash, this`tipHeight, this`tipWork, this`heightByHash, this`hashByHeight, this`utxoSet,
               this`disk, this`log, this`admitted
      ensures Valid() && old(log) <= log && Extends(old(disk).index, disk.index)
      ensures Handling(entries, es) && (|es| == |entries| || Resets(es))
      ensures queue == QueueThrough(queue0, es) && QueueOk(disk.index, Memory(), queue)
      ensures Story(c, p, old(Now()), Now(), clock, es)
      ensures |queue| <= |queue0| + |entries|
      ensures HashSet(queue) <= HashSet(queue0) + HashSet(EntryHashes(entries))
      ensures admitted <= old(admitted) + HashSet(EntryHashes(entries))
      ensures old(BestTip()) && p.maxReorgDepth == 0 && AllWork(entries) ==> BestTip()
      ensures Explained(s.torn) && Survives(s)
    {
      hide Valid, BestTip, InSync, WorkCounts, OffMain, Extends, Recoverable, QueueOk, EntriesOk, HashSet, Linked,
           EntryHashes, Undoable, HasBad, OnlyBadLeft, SafeLog, Handling, Resets, QueueThrough, Story;
      queue, es, s := queue0, [], Safety(|log|, false);
      StartValid();
      SafeNow();
      assert entries[0..] == entries;
      NothingHandled(entries, queue0);
      LogHasDisk();
      StoryBegins(c, p, Now(), clock);
      for i := 0 to |entries|
        invariant Valid() && old(log) <= log && Extends(old(disk).index, disk.index) && Linked(disk.index)
        invariant Handling(entries, es) && |es| == i && !Resets(es) && queue == QueueThrough(queue0, es)
        invariant QueueOk(disk.index, Memory(), queue) && parent !in queue
        invariant parent in heightByHash
        invariant EntriesOk(c, hashByHeight, parent, entries[i..], queue)
        invariant Story(c, p, old(Now()), Now(), clock, es)
        invariant HashSet(queue) <= HashSet(queue0) + HashSet(EntryHashes(entries))
        invariant |queue| <= |queue0| + i
        invariant admitted <= old(admitted) + HashSet(EntryHashes(entries))
        invariant old(BestTip()) && p.maxReorgDepth == 0 && AllWork(entries) ==> BestTip()
        invariant Explained(s.torn) && Survives(s)
      {
        ghost var mid, ix, t, e := log, disk.index, s, Event(entries[i].hash, entries[i].block, 0, Rejected);
        ghost var now := Now();
        var reset;
        queue, reset, e, t := HandleEntry(entries, i, parent, queue, clock);
        StartValid();
        ExtendsTwice(old(disk).index, ix, disk.index);
        HandlingNext(entries, es, queue0, e);
        StoryGoesOn(c, p, old(Now()), now, Now(), clock, es, [e]);
        SafeJoinIf(c, p, old(InSync()), mid, log, |old(log)|, s, t);
        s, es := if s.torn then s else t, es + [e];
        if reset { return; }
      }
    }

    ghost function Now(): Chapter
      reads this
    {
      Chapter(log, disk.index, admitted, Undoable(), heightByHash.Keys)
    }

    static lemma {:induction false} NothingHandled(entries: seq<OrphanEntry>, queue: seq<Hash>)
      ensures Handling(entries, []) && !Resets([]) && QueueThrough(queue, []) == queue
    {
    }

    /** The next of the listed children. */
    method HandleEntry(entries: seq<OrphanEntry>, i: nat, parent: Hash, queue0: seq<Hash>, clock: Hash -> u32)
      returns (queue: seq<Hash>, reset: bool, ghost e: Event, ghost s: Safety)
      requires Valid() && QueueOk(disk.index, Memory(), queue0) && parent !in queue0 && parent in heightByHash
      requires i < |entries| && EntriesOk(c, hashByHeight, parent, entries[i..], queue0) && parent !in EntryHashes(entries)
      modifies this`tipHash, this`tipHeight, this`tipWork, this`heightByHash, this`hashByHeight, this`utxoSet,
               this`disk, this`log, this`admitted
      ensures Valid() && old(log) <= log && Extends(old(disk).index, disk.index)
      ensures e.hash == entries[i].hash && e.block == entries[i].block && Story(c, p, old(Now()), Now(), clock, [e])
      ensures queue == QueueAfter(queue0, e.hash, Some(e.outcome)) && (reset <==> e.outcome.Reorganized?)
      ensures QueueOk(disk.index, Memory(), queue)
      ensures |queue| <= |queue0| + 1 && HashSet(queue) <= HashSet(queue0) + HashSet(EntryHashes(entries))
      ensures admitted <= old(admitted) + HashSet(EntryHashes(entries))
      ensures !reset ==>
                && parent !in queue && parent in heightByHash
                && EntriesOk(c, hashByHeight, parent, entries[i + 1..], queue)
      ensures old(BestTip()) && p.maxReorgDepth == 0 && AllWork(entries) ==> BestTip()
      ensures Explained(s.torn) && Survives(s)
    {
      hide Valid, BestTip, InSync, WorkCounts, OffMain, Extends, Recoverable, QueueOk, EntriesOk, HashSet, Linked, Due,
           EntryHashes, Undoable, HasBad, OnlyBadLeft, SafeLog, StaysKnown, Fated, QueueAfter, DueAt, AllKnownBy, Story;
      ghost var at, heightOf, now := hashByHeight, heightByHash, Now();
      var entry := entries[i];
      StartValid();
      LogHasDisk();
      FirstEntry(c, at, parent, entries[i..], queue0);
      assert entries[i..][0] == entry;
      EntryListed(entries, i);
      var outcome;
      queue, outcome, s := HandleOrphan(entry, parent, queue0, clock(entry.hash));
      StartValid();
      e := Event(entry.hash, entry.block, Newest(now.log), outcome.value);
      StoryOfOne(c, p, now, Now(), clock, e);
      Pushed(queue0, queue, entry.hash, outcome);
      reset := outcome == Some(Reorganized);
      if !reset {
        ParentKnown(heightOf, heightByHash, entry.hash, parent);
        OtherEntries(c, at, hashByHeight, parent, entries[i..], queue0, queue);
        assert entries[i..][1..] == entries[i + 1..];
      }
    }

    lemma {:induction false} Tells()
      requires Valid()
      ensures EnvOk(c, p) && Linked(disk.index) && tipHash in disk.index && disk.index[tipHash].height == tipHeight
      ensures MainOk(disk.index, hashByHeight, tipHeight, tipHash) && utxoSet == CoinsAt(c, disk.index, tipHash)
    {
      hide EnvOk, TreeOk, UndoOk, Good, CoinsAt, AdmittedOk, OrphansOk;
      ViewFacts(c, p, disk.index, Memory());
    }

    lemma {:induction false} LogHasDisk()
      requires Valid()
      ensures log != [] && log[|log| - 1] == disk && disk.tip == Some(tipHash)
    {
      hide EnvOk, TreeOk, UndoOk, ViewOk, AdmittedOk, OrphansOk;
    }

    static lemma {:induction false} ParentKnown(heightOf: map<Hash, nat>, heightOf': map<Hash, nat>, h: Hash, parent: Hash)
      requires StaysKnown(heightOf, heightOf', h) && parent in heightOf && parent != h
      ensures parent in heightOf'
    {
    }

    ghost predicate PoolWork(pool: map<Hash, Block>) {
      forall h :: h in pool ==> WorkCounts(c, p, pool[h])
    }

    /** Pops the queue and takes the children of what was popped out of the pool. */
    method NextChildren(queue0: seq<Hash>) returns (parent: Hash, queue: seq<Hash>, entries: seq<OrphanEntry>)
      requires Valid() && queue0 != []
      requires QueueOk(disk.index, Memory(), queue0) && HashSet(queue0) !! orphans.Keys
      modifies this`orphans
      ensures Valid() && queue0 == [parent] + queue && parent !in queue && parent in heightByHash
      ensures QueueOk(disk.index, Memory(), queue)
      ensures EntriesOk(c, hashByHeight, parent, entries, queue) && parent !in EntryHashes(entries)
      ensures orphans == Others(old(orphans), parent) && IsListing(entries, old(orphans), parent)
      ensures |orphans| + |entries| == |old(orphans)|
    {
      hide EnvOk, TreeOk, UndoOk, ViewOk, AdmittedOk, EntriesOk, QueueOk, OffMain, InOrder, EntryHashes, HashSet, IsListing,
           Others, OrphansOk;
      parent, queue := queue0[0], queue0[1..];
      OthersAreOk(c, orphans, parent);
      QueuePop(disk.index, Memory(), queue0);
      ghost var pool := orphans;
      entries := TakeChildren(parent);
      ListingIsOk(c, p, disk.index, Memory(), pool, queue0, entries);
    }

    /** One round of the queue. */
    method ProcessRound(queue0: seq<Hash>, clock: Hash -> u32) returns (queue: seq<Hash>, ghost r: Round, ghost s: Safety)
      requires Valid() && queue0 != []
      requires QueueOk(disk.index, Memory(), queue0) && HashSet(queue0) !! orphans.Keys
      modifies this`tipHash, this`tipHeight, this`tipWork, this`heightByHash, this`hashByHeight, this`utxoSet,
               this`disk, this`log, this`admitted, this`orphans
      ensures Valid() && old(log) <= log && Extends(old(disk).index, disk.index)
      ensures RoundOk(old(orphans), queue0, r) && r.parent == queue0[0] && Story(c, p, old(Now()), Now(), clock, r.events)
      ensures queue == QueueThrough(queue0[1..], r.events)
      ensures QueueOk(disk.index, Memory(), queue) && HashSet(queue) !! orphans.Keys
      ensures orphans == Others(old(orphans), queue0[0])
      ensures 2 * |orphans| + |queue| < 2 * |old(orphans)| + |queue0|
      ensures admitted <= old(admitted) + old(orphans).Keys
      ensures old(BestTip()) && p.maxReorgDepth == 0 && PoolWork(old(orphans)) ==> BestTip()
      ensures Explained(s.torn) && Survives(s)
    {
      hide Valid, BestOf, WorkCounts, OffMain, Extends, Recoverable, QueueOk, EntriesOk, EntryHashes, SafeLog,
           HashSet, IsListing, AllWork, PoolWork, Others, MainHasUndo, HasBad, OnlyBadLeft, QueueThrough, Handling, Story;
      ghost var pool := orphans;
      var parent, rest, entries := NextChildren(queue0);
      RoundFacts(pool, parent, entries, queue0, rest);
      ghost var es;
      queue, es, s := ProcessChildren(entries, parent, rest, clock);
      r := Round(parent, es);
    }

    /** After a block is connected: its waiting descendants, breadth first; a reorganisation starts the queue afresh. */
    method ProcessOrphans(parentHash: Hash, clock: Hash -> u32) returns (ghost rounds: seq<Round>, ghost s: Safety)
      requires Valid() && Frontier(disk.index, Memory(), parentHash) && parentHash !in orphans
      modifies this`tipHash, this`tipHeight, this`tipWork, this`heightByHash, this`hashByHeight, this`utxoSet,
               this`disk, this`log, this`admitted, this`orphans
      ensures Valid() && old(log) <= log && Extends(old(disk).index, disk.index)
      ensures Swept(old(orphans), parentHash, rounds, orphans) && Story(c, p, old(Now()), Now(), clock, Flat(rounds))
      ensures admitted <= old(admitted) + old(orphans).Keys
      ensures old(BestTip()) && p.maxReorgDepth == 0 && PoolWork(old(orphans)) ==> BestTip()
      ensures Explained(s.torn) && Survives(s)
    {
      hide Valid, BestTip, InSync, WorkCounts, OffMain, Extends, Recoverable, QueueOk, Undoable, Linked, SafeLog,
           Frontier, HashSet, SubPool, Unsettled, PoolWork, Others, HasBad, OnlyBadLeft, RoundOk, Played, Parents, Flat, QueueAt, QueueThrough,
           Story;
      var queue := [parentHash];
      rounds, s := [], Safety(|log|, false);
      ghost var pool0 := orphans;
      StartValid();
      StartQueue(parentHash);
      LogHasDisk();
      StoryBegins(c, p, Now(), clock);
      SafeNow();
      while queue != []
        invariant Valid() && old(log) <= log && Extends(old(disk).index, disk.index) && Linked(disk.index)
        invariant QueueOk(disk.index, Memory(), queue) && HashSet(queue) !! orphans.Keys
        invariant Played(pool0, [parentHash], rounds) && queue == QueueAt([parentHash], rounds)
        invariant orphans == Unsettled(pool0, Parents(rounds))
        invariant Story(c, p, old(Now()), Now(), clock, Flat(rounds))
        invariant admitted <= old(admitted) + pool0.Keys
        invariant old(BestTip()) && p.maxReorgDepth == 0 && PoolWork(pool0) ==> BestTip()
        invariant Explained(s.torn) && Survives(s)
        decreases 2 * |orphans| + |queue|
      {
        ghost var pool, mid, ix, now := orphans, log, disk.index, Now();
        SettleOne(pool0, Parents(rounds), queue[0]);
        SubPoolWork(pool, pool0);
        SubPoolKeys(pool, pool0);
        ghost var r, t;
        queue, r, t := ProcessRound(queue, clock);
        StartValid();
        ExtendsTwice(old(disk).index, ix, disk.index);
        NextRound(pool0, [parentHash], rounds, r);
        StoryGoesOn(c, p, old(Now()), now, Now(), clock, Flat(rounds), r.events);
        SafeJoinIf(c, p, old(InSync()), mid, log, |old(log)|, s, t);
        rounds, s := rounds + [r], if s.torn then s else t;
      }
    }

    static lemma {:induction false} SubPoolKeys(pool: map<Hash, Block>, pool0: map<Hash, Block>)
      requires SubPool(pool, pool0)
      ensures pool.Keys <= pool0.Keys && forall parent :: SubPool(Others(pool, parent), pool)
    {
    }

    lemma {:induction false} StartQueue(h: Hash)
      requires Frontier(disk.index, Memory(), h)
      ensures QueueOk(disk.index, Memory(), [h]) && HashSet([h]) == {h} && orphans == Unsettled(orphans, Parents([]))
      ensures Played(orphans, [h], []) && QueueAt([h], []) == [h] && Flat([]) == []
    {
    }

    lemma {:induction false} RoundFacts(pool: map<Hash, Block>, parent: Hash, entries: seq<OrphanEntry>,
                                        queue: seq<Hash>, rest: seq<Hash>)
      requires IsListing(entries, pool, parent) && queue == [parent] + rest && HashSet(queue) !! pool.Keys
      ensures HashSet(queue) == HashSet(rest) + {parent} && HashSet(EntryHashes(entries)) <= pool.Keys
      ensures HashSet(rest) + HashSet(EntryHashes(entries)) !! Others(pool, parent).Keys
      ensures PoolWork(pool) ==> AllWork(entries)
    {
      hide WorkCounts, InOrder;
    }

    // ----------------------------------------------------------------------- the entry point

    /** Expired orphans go first, then one more if the pool is still full. */
    static method MakeRoom(pool: map<Hash, Block>, expired: set<Hash>) returns (room: map<Hash, Block>)
      ensures RoomMade(pool, expired, MAX_ORPHAN_BLOCKS, room)
      ensures |pool| <= MAX_ORPHAN_BLOCKS ==> |room| < MAX_ORPHAN_BLOCKS
    {
      hide RoomMade;
      room := pool - expired;
      SubPoolSmaller(room, pool);
      if |room| < MAX_ORPHAN_BLOCKS {
        NoneDropped(pool, expired);
      } else {
        var victim :| victim in room;
        OneDropped(pool, expired, victim);
        room := room - {victim};
      }
    }

    static lemma {:induction false} NoneDropped(pool: map<Hash, Block>, expired: set<Hash>)
      ensures RoomMade(pool, expired, MAX_ORPHAN_BLOCKS, pool - expired)
    {
      hide RoomMade;
      RoomIs(pool, expired, MAX_ORPHAN_BLOCKS, {});
      assert pool - expired - {} == pool - expired;
    }

    static lemma {:induction false} OneDropped(pool: map<Hash, Block>, expired: set<Hash>, victim: Hash)
      requires victim in pool - expired && |pool - expired| >= MAX_ORPHAN_BLOCKS
      ensures RoomMade(pool, expired, MAX_ORPHAN_BLOCKS, pool - expired - {victim})
      ensures |pool - expired - {victim}| + 1 == |pool - expired|
    {
      hide RoomMade;
      RoomIs(pool, expired, MAX_ORPHAN_BLOCKS, {victim});
      PoolSplits(pool - expired, {victim});
    }

    /** Keeps a block whose parent is unknown. */
    method KeepOrphan(hash: Hash, block: Block, expired: set<Hash>)
      requires OrphansOk(c, orphans) && c.blockId(block.header) == hash
      modifies this`orphans
      ensures OrphansOk(c, orphans) && Joined(old(orphans), expired, hash, block, orphans)
      ensures |old(orphans)| <= MAX_ORPHAN_BLOCKS ==> |orphans| <= MAX_ORPHAN_BLOCKS
    {
      hide RoomMade, Joined;
      var room := MakeRoom(orphans, expired);
      PoolGrows(room, hash, block);
      JoinedIs(orphans, expired, hash, block, room);
      orphans := room[hash := block];
    }

    static lemma {:induction false} PoolGrows(pool: map<Hash, Block>, h: Hash, b: Block)
      ensures |pool[h := b]| <= |pool| + 1
    {
      assert pool[h := b].Keys == pool.Keys + {h};
    }

    static lemma {:induction false} SubPoolSmaller(pool: map<Hash, Block>, pool0: map<Hash, Block>)
      requires SubPool(pool, pool0)
      ensures |pool| <= |pool0|
    {
      var gone := pool0.Keys - pool.Keys;
      assert pool0.Keys == pool.Keys + gone;
      assert |pool0.Keys| == |pool.Keys| + |gone|;
    }

    lemma {:induction false} SubPoolWork(pool: map<Hash, Block>, pool0: map<Hash, Block>)
      requires SubPool(pool, pool0)
      ensures PoolWork(pool0) ==> PoolWork(pool)
    {
      hide WorkCounts;
    }

    lemma {:induction false} NewOrphanWork(pool: map<Hash, Block>, expired: set<Hash>, h: Hash, b: Block, pool': map<Hash, Block>)
      requires Joined(pool, expired, h, b, pool')
      ensures WorkCounts(c, p, b) && PoolWork(pool) ==> PoolWork(pool')
    {
      hide WorkCounts, Joined;
      JoinedSub(pool, expired, h, b, pool');
    }

    lemma {:induction false} UnknownIsOffMain(h: Hash)
      requires Valid() && h !in heightByHash
      ensures OffMain(hashByHeight, h)
    {
      hide EnvOk, TreeOk, UndoOk, Good, CoinsAt;
      forall i | i in hashByHeight ensures hashByHeight[i] != h {
        MainAt(disk.index, hashByHeight, tipHeight, tipHash, i);
      }
    }

    /** A block just admitted is where its orphans wait. */
    lemma {:induction false} FrontierNow(h: Hash)
      requires Valid() && h in disk.index && (h == tipHash || (OffMain(hashByHeight, h) && h in heightByHash))
      ensures Frontier(disk.index, Memory(), h) && h in heightByHash
    {
      hide EnvOk, TreeOk, UndoOk, ViewOk, OffMain;
      ViewFacts(c, p, disk.index, Memory());
    }

    /** The answer to a block, from the state it meets. */
    ghost function Answer(block: Block, now: u32): Verdict
      reads this
    {
      var hash := c.blockId(block.header);
      if hash in heightByHash then AlreadyKnown
      else if hash in orphans then AlreadyOrphan
      else if block.header.prevBlock in heightByHash then Handled(Due(c, p, disk.index, disk.undo, Memory(), hash, block, now))
      else if PowOk(hash, block.header.bits) then NewOrphan else OrphanWithoutWork
    }

    /** Memory, disk, log and pool exactly as they were. */
    twostate predicate Unmoved()
      reads this
    {
      Memory() == old(Memory()) && disk == old(disk) && log == old(log) && admitted == old(admitted) && orphans == old(orphans)
    }

    /** What an outcome means for memory, disk and pool, with the orphans that waited for the block. */
    twostate predicate OutcomeEffect(hash: Hash, block: Block, r: Outcome, clock: Hash -> u32, t: Trace)
      reads this
    {
      if Admits(r) then
        && Swept(old(orphans), hash, t.rounds, orphans)
        && Story(c, p, old(Now()), Now(), clock, [Event(hash, block, Newest(old(log)), r)] + Flat(t.rounds))
      else if r.Rejected? then Unmoved()
      else Memory() == old(Memory()) && admitted == old(admitted) && orphans == old(orphans) && t.safety.usable == |log|
    }

    /** What the answer means for them. */
    twostate predicate EffectOf(block: Block, v: Verdict, clock: Hash -> u32, expired: set<Hash>, t: Trace)
      reads this
    {
      var hash := c.blockId(block.header);
      match v
      case NewOrphan =>
        && Memory() == old(Memory()) && disk == old(disk) && log == old(log) && admitted == old(admitted)
        && Joined(old(orphans), expired, hash, block, orphans)
      case Handled(r) => OutcomeEffect(hash, block, r, clock, t)
      case _ => Unmoved()
    }

    /** A block whose parent is known, and then the orphans that waited for it. */
    method HandleKnown(hash: Hash, block: Block, clock: Hash -> u32) returns (r: Outcome, ghost t: Trace)
      requires Valid() && c.blockId(block.header) == hash && block.header.prevBlock in heightByHash
      requires hash !in heightByHash && hash !in orphans
      modifies this
      ensures Valid() && old(log) <= log && Extends(old(disk).index, disk.index)
      ensures r == Due(c, p, old(disk).index, old(disk).undo, old(Memory()), hash, block, clock(hash))
      ensures OutcomeEffect(hash, block, r, clock, t)
      ensures old(admitted) <= admitted <= old(admitted) + {hash} + old(orphans).Keys
      ensures |orphans| <= |old(orphans)| && (PoolWork(old(orphans)) ==> PoolWork(orphans))
      ensures old(BestTip()) && p.maxReorgDepth == 0 && WorkCounts(c, p, block) && PoolWork(old(orphans)) ==> BestTip()
      ensures Explained(t.safety.torn) && Survives(t.safety)
    {
      hide Valid, Recoverable, Extends, BestTip, InSync, Undoable, Linked, SafeLog, WorkCounts, OffMain, PoolWork, HasBad, OnlyBadLeft, Frontier, Due,
           Fated, DueAt, Swept, Flat, AllKnownBy, Story;
      ghost var s, e;
      UnknownIsOffMain(hash);
      StartValid();
      LogHasDisk();
      r, e, s := AdmitKnown(hash, block, clock(hash), false);
      StartValid();
      t := Trace([], s);
      if Admits(r) {
        ghost var pool, ix, mid, now := orphans, disk.index, log, Now();
        StoryOfOne(c, p, old(Now()), now, clock, e);
        var rounds, later := ProcessOrphans(hash, clock);
        StartValid();
        ExtendsTwice(old(disk).index, ix, disk.index);
        SweptFacts(pool, hash, rounds);
        StoryGoesOn(c, p, old(Now()), now, Now(), clock, [e], Flat(rounds));
        SafeJoinIf(c, p, old(InSync()), mid, log, |old(log)|, s, later);
        t := Trace(rounds, if s.torn then s else later);
      }
    }

    lemma {:induction false} SweptFacts(pool: map<Hash, Block>, hash: Hash, rounds: seq<Round>)
      requires Swept(pool, hash, rounds, orphans)
      ensures |orphans| <= |pool| && (PoolWork(pool) ==> PoolWork(orphans))
    {
      hide Played, QueueAt, Unsettled, PoolWork;
      UnsettledFacts(pool, Parents(rounds));
    }

    lemma {:induction false} UnsettledFacts(pool: map<Hash, Block>, settled: set<Hash>)
      ensures |Unsettled(pool, settled)| <= |pool| && (PoolWork(pool) ==> PoolWork(Unsettled(pool, settled)))
    {
      SettleOne(pool, settled, []);
      SubPoolSmaller(Unsettled(pool, settled), pool);
      SubPoolWork(Unsettled(pool, settled), pool);
    }

    /** One block, before its orphans: its outcome and fate, what stays known, and what a crash may do. */
    method AdmitKnown(hash: Hash, block: Block, now: u32, fromPool: bool) returns (r: Outcome, ghost e: Event, ghost s: Safety)
      requires Valid() && c.blockId(block.header) == hash && block.header.prevBlock in heightByHash && OffMain(hashByHeight, hash)
      modifies this`tipHash, this`tipHeight, this`tipWork, this`heightByHash, this`hashByHeight, this`utxoSet,
               this`disk, this`log, this`admitted
      ensures Valid() && old(log) <= log && Extends(old(disk).index, disk.index)
      ensures r == Due(c, p, old(disk).index, old(disk).undo, old(Memory()), hash, block, now)
      ensures e == Event(hash, block, Newest(old(log)), r) && DueAt(c, p, old(disk), hash, block, now, r)
      ensures Fated(c, p, disk.index, admitted, old(Undoable()), hash, block, now)
      ensures AllKnownBy(disk.index, old(heightByHash).Keys, [e], heightByHash.Keys)
      ensures admitted == if Admits(r) then old(admitted) + {hash} else old(admitted)
      ensures Admits(r) ==> Frontier(disk.index, Memory(), hash) && hash in disk.index && hash in heightByHash && !s.torn
      ensures r.Extended? ==> block.header.prevBlock == old(tipHash) && hashByHeight == old(hashByHeight)[old(tipHeight) + 1 := hash]
      ensures r.Extended? || r.Reorganized? ==> tipHash == hash
      ensures !r.Extended? && !r.Reorganized? ==> tipHash == old(tipHash) && hashByHeight == old(hashByHeight)
      ensures !r.Reorganized? ==> StaysKnown(old(heightByHash), heightByHash, hash)
      ensures r.Rejected? ==> disk == old(disk) && log == old(log)
      ensures !Admits(r) && !fromPool ==> Memory() == old(Memory())
      ensures p.maxReorgDepth == 0 ==> !r.DeepSideChain?
      ensures old(BestTip()) && p.maxReorgDepth == 0 && WorkCounts(c, p, block) ==> BestTip()
      ensures Explained(s.torn) && Survives(s) && s.usable == |log|
    {
      hide EnvOk, TreeOk, UndoOk, ViewOk, Recoverable, AllRecoverable, Extends, OrphansOk, AdmittedOk, BestOf, SafeLog, StaysKnown,
           MainHasUndo, WorkCounts, OffMain, HasBad, Frontier, Due, ChildRec, Idle, Fated, Torn, TornAt, DueAt, AllKnownBy, OnlyBadLeft;
      ghost var undo, v, from, sync, before, logged := disk.undo, Memory(), |log|, InSync(), disk, log;
      ValidView();
      r, e := AdmitOnce(hash, block, now, fromPool);
      s := Safety(|log|, r.ReorgFailed? && !Idle(c, p, disk.index, undo, v, hash));
      if sync {
        if s.torn { TornHere(before, logged, v, block, now); }
        SafeSoFar(c, p, log, from, s.torn);
      }
    }

    /** Its outcome and fate, and what stays known. */
    method AdmitOnce(hash: Hash, block: Block, now: u32, fromPool: bool) returns (r: Outcome, ghost e: Event)
      requires Valid() && c.blockId(block.header) == hash && block.header.prevBlock in heightByHash && OffMain(hashByHeight, hash)
      modifies this`tipHash, this`tipHeight, this`tipWork, this`heightByHash, this`hashByHeight, this`utxoSet,
               this`disk, this`log, this`admitted
      ensures Valid() && old(log) <= log && Extends(old(disk).index, disk.index)
      ensures r == Due(c, p, old(disk).index, old(disk).undo, old(Memory()), hash, block, now)
      ensures e == Event(hash, block, Newest(old(log)), r) && DueAt(c, p, old(disk), hash, block, now, r)
      ensures Fated(c, p, disk.index, admitted, old(Undoable()), hash, block, now)
      ensures AllKnownBy(disk.index, old(heightByHash).Keys, [e], heightByHash.Keys)
      ensures admitted == if Admits(r) then old(admitted) + {hash} else old(admitted)
      ensures Admits(r) ==> Frontier(disk.index, Memory(), hash) && hash in disk.index && hash in heightByHash
      ensures r.Extended? ==> block.header.prevBlock == old(tipHash) && hashByHeight == old(hashByHeight)[old(tipHeight) + 1 := hash]
      ensures r.Extended? || r.Reorganized? ==> tipHash == hash
      ensures !r.Extended? && !r.Reorganized? ==> tipHash == old(tipHash) && hashByHeight == old(hashByHeight)
      ensures !r.Reorganized? ==> StaysKnown(old(heightByHash), heightByHash, hash)
      ensures r.Rejected? ==> disk == old(disk) && log == old(log)
      ensures !Admits(r) && !fromPool ==> Memory() == old(Memory())
      ensures p.maxReorgDepth == 0 ==> !r.DeepSideChain?
      ensures old(BestTip()) && p.maxReorgDepth == 0 && WorkCounts(c, p, block) ==> BestTip()
      ensures Explained(r.ReorgFailed?)
      ensures old(InSync()) ==>
                && LoggedFrom(|old(log)|) && (!r.ReorgFailed? ==> InSync())
                && (r.ReorgFailed? ==> Torn(c, p, old(disk), old(Memory()), hash, ChildRec(old(disk).index, block), disk))
                && (r.ReorgFailed? ==> if Idle(c, p, disk.index, old(disk).undo, old(Memory()), hash) then InSync() else disk.best != disk.tip)
    {
      hide EnvOk, TreeOk, UndoOk, ViewOk, Recoverable, AllRecoverable, Extends, OrphansOk, AdmittedOk, BestOf, Good,
           MainHasUndo, Linked, Sane, WorkCounts, OffMain, HasBad, Frontier, Due, ChildRec, Idle, Rehung, ForkOf, AgreeAway, Fated, Torn, DueAt,
           AllKnownBy, OnlyBadLeft, SyncDue;
      ghost var ix, undo, v, logged, known := disk.index, disk.undo, Memory(), log, admitted;
      StartValid();
      ValidFacts(block.header.prevBlock);
      ValidView();
      DueHere(hash, block, now);
      r := AcceptBlock(hash, block, now, fromPool);
      e := Event(hash, block, Newest(logged), r);
      KnownAfter(v, e, ForkOf(ix, v, block));
      DueFate(c, p, ix, disk.index, undo, v, admitted, hash, block, now);
      DueMeans(c, p, ix, undo, v, hash, block, now);
      ExplainOutcome(ix, known, MainHasUndo(v.at, undo), hash, r.ReorgFailed?);
      if Admits(r) { FrontierNow(hash); }
    }

    lemma {:induction false} DueHere(hash: Hash, block: Block, now: u32)
      requires Valid()
      ensures DueAt(c, p, disk, hash, block, now, Due(c, p, disk.index, disk.undo, Memory(), hash, block, now))
    {
      hide Due, EnvOk, TreeOk, UndoOk, ViewOk, AdmittedOk, OrphansOk;
      assert ViewOk(c, p, disk.index, Memory());
    }

    /** What one block adds to the known ones: itself, or what the switch to it went through. */
    lemma {:induction false} KnownAfter(v: View, e: Event, f: nat)
      requires Valid() && (e.outcome.Extended? || e.outcome.Reorganized? ==> tipHash == e.hash)
      requires e.outcome.Reorganized? ==> Rehung(v.heightOf, v.at, heightByHash, hashByHeight, f)
      requires !e.outcome.Reorganized? ==> heightByHash.Keys <= v.heightOf.Keys + if Admits(e.outcome) then {e.hash} else {}
      ensures AllKnownBy(disk.index, v.heightOf.Keys, [e], heightByHash.Keys)
    {
      hide EnvOk, TreeOk, UndoOk, Good, CoinsAt, AdmittedOk, OrphansOk, OnWay, MainOk, HeightsOk;
      assert e in [e];
      if e.outcome.Reorganized? {
        forall x | x in heightByHash && x !in v.heightOf ensures OnWay(disk.index, e.hash, x) {
          assert x in MainAbove(hashByHeight, f);
          var i :| i in hashByHeight && hashByHeight[i] == x;
          MainOnWay(i);
        }
      }
    }

    lemma {:induction false} MainOnWay(i: nat)
      requires Valid() && i in hashByHeight
      ensures OnWay(disk.index, tipHash, hashByHeight[i])
    {
      hide EnvOk, TreeOk, UndoOk, Good, CoinsAt, AdmittedOk, OrphansOk, Linked;
      ViewFacts(c, p, disk.index, Memory());
      MainPrefix(disk.index, hashByHeight, tipHeight, tipHash, i);
    }

    /** After a switch that tore disk and memory apart, the log says so. */
    lemma {:induction false} TornHere(before: Disk, logged: seq<Disk>, v: View, b: Block, now: u32)
      requires logged != [] && logged[|logged| - 1] == before && logged <= log && log != [] && log[|log| - 1] == disk
      requires ViewOk(c, p, before.index, v) && before.tip == Some(v.tip) && before.best == Some(v.tip) && before.coins == v.coins
      requires Due(c, p, before.index, before.undo, v, c.blockId(b.header), b, now) == ReorgFailed
      requires Torn(c, p, before, v, c.blockId(b.header), ChildRec(before.index, b), disk) && disk.best != disk.tip
      ensures TornAt(c, p, log, |log|)
    {
      hide ViewOk, Due, Torn, FailedSwitch;
      SwitchFailed(c, p, before, v, b, now, disk);
      var j := |logged| - 1;
      assert log[j] == before;
      assert FailedSwitch(c, p, log[j], log[|log| - 1]);
    }

    /** A block whose parent is unknown but that meets its own target: nothing but the pool changes. */
    method NewWaiting(hash: Hash, block: Block, expired: set<Hash>)
      requires Valid() && c.blockId(block.header) == hash
      modifies this`orphans
      ensures Valid() && Joined(old(orphans), expired, hash, block, orphans)
      ensures |old(orphans)| <= MAX_ORPHAN_BLOCKS ==> |orphans| <= MAX_ORPHAN_BLOCKS
      ensures WorkCounts(c, p, block) && PoolWork(old(orphans)) ==> PoolWork(orphans)
      ensures Explained(false) && (old(BestTip()) ==> BestTip())
    {
      hide EnvOk, TreeOk, UndoOk, ViewOk, OrphansOk, AdmittedOk, BestOf, MainHasUndo, WorkCounts, PoolWork, HasBad, OnlyBadLeft, Joined;
      ghost var pool := orphans;
      KeepOrphan(hash, block, expired);
      NewOrphanWork(pool, expired, hash, block, orphans);
    }

    /**
     * One block from the network. Whatever the block and whatever the state: memory stays the replay of the path to
     * the tip, the tip stays the best admitted block, and a step that began in sync can be interrupted up to its
     * first failed switch.
     */
    method ProcessBlock(block: Block, clock: Hash -> u32, expired: set<Hash>) returns (v: Verdict, ghost t: Trace)
      requires Valid()
      modifies this
      ensures Valid() && old(log) <= log && Extends(old(disk).index, disk.index)
      ensures v == old(Answer(block, clock(c.blockId(block.header)))) && EffectOf(block, v, clock, expired, t)
      ensures old(admitted) <= admitted <= old(admitted) + {c.blockId(block.header)} + old(orphans).Keys
      ensures |old(orphans)| <= MAX_ORPHAN_BLOCKS ==> |orphans| <= MAX_ORPHAN_BLOCKS
      ensures WorkCounts(c, p, block) && PoolWork(old(orphans)) ==> PoolWork(orphans)
      ensures old(BestTip()) && p.maxReorgDepth == 0 && WorkCounts(c, p, block) && PoolWork(old(orphans)) ==> BestTip()
      ensures Explained(t.safety.torn) && Survives(t.safety)
    {
      hide EnvOk, TreeOk, UndoOk, ViewOk, Recoverable, Extends, OrphansOk, AdmittedOk, BestOf, Linked, SafeLog, AllRecoverable,
           MainHasUndo, WorkCounts, PoolWork, PowOk, HasBad, OnlyBadLeft, Due, Joined, OutcomeEffect;
      var hash := c.blockId(block.header);
      StartValid();
      t := Trace([], Safety(|log|, false));
      SafeNow();
      if hash in heightByHash { return AlreadyKnown, t; }
      if hash in orphans { return AlreadyOrphan, t; }
      if block.header.prevBlock !in heightByHash {
        if !PowOk(hash, block.header.bits) { return OrphanWithoutWork, t; }
        NewWaiting(hash, block, expired);
        return NewOrphan, t;
      }
      var r;
      r, t := HandleKnown(hash, block, clock);
      v := Handled(r);
    }
  }

  // -------------------------------------------------------------------------- whole runs

  ghost predicate AllCount(c: Crypto, p: ChainParams, blocks: seq<Block>) {
    forall i :: 0 <= i < |blocks| ==> WorkCounts(c, p, blocks[i])
  }

  /**
   * A node from first start through any sequence of blocks. Memory is the replay of the path to the tip, the tip is
   * the best of everything admitted, and disk equals memory unless an invalid block was stored on the way.
   */
  method Run(c: Crypto, p: ChainParams, blocks: seq<Block>, clocks: nat -> Hash -> u32, expired: nat -> set<Hash>)
    returns (node: Chain)
    requires EnvOk(c, p)
    ensures fresh(node) && node.c == c && node.p == p && node.Valid() && node.Undoable()
    ensures p.maxReorgDepth == 0 && AllCount(c, p, blocks) ==> node.BestTip()
    ensures node.InSync() || HasBad(c, p, node.disk.index)
    ensures OnlyBadLeft(c, p, node.disk.index, node.admitted)
    ensures |node.orphans| <= MAX_ORPHAN_BLOCKS
  {
    hide EnvOk, Recoverable, Extends, HasBad, OnlyBadLeft, WorkCounts, Selectable, SelectedTip, GenesisHash,
         Chain.Valid, Chain.InSync, Chain.BestTip, Chain.Undoable, Chain.Answer, Chain.EffectOf, SafeLog;
    node := new Chain.Open(c, p, Disk(map[], map[], None, 0, None, map[]));
    for i := 0 to |blocks|
      invariant fresh(node) && node.c == c && node.p == p && node.Valid() && node.Undoable()
      invariant |node.orphans| <= MAX_ORPHAN_BLOCKS
      invariant AllCount(c, p, blocks) ==> node.PoolWork(node.orphans)
      invariant p.maxReorgDepth == 0 && AllCount(c, p, blocks) ==> node.BestTip()
      invariant node.InSync() || HasBad(c, p, node.disk.index)
      invariant OnlyBadLeft(c, p, node.disk.index, node.admitted)
    {
      var _, _ := node.ProcessBlock(blocks[i], clocks(i), expired(i));
    }
  }

  /** Power lost after any store call up to the first tear: the restarted node is consistent. */
  method RestartAfterCrash(node: Chain, ghost from: nat, ghost s: Safety, ghost i: nat, store: Disk) returns (restarted: Chain)
    requires node.Valid() && SafeLog(node.c, node.p, node.log, from, s) && from <= i < s.usable && store == node.log[i]
    ensures fresh(restarted) && restarted.c == node.c && restarted.p == node.p && restarted.Valid()
    ensures Selectable(store) && restarted.tipHash == SelectedTip(store) && restarted.At(restarted.tipHash)
    ensures restarted.InSync() <==> store.coins.Keys <= restarted.utxoSet.Keys
    ensures Startable(restarted.c, restarted.p, restarted.disk) <==> restarted.InSync()
  {
    hide EnvOk, TreeOk, UndoOk, Recoverable, AdmittedOk, Good, CoinsAt, Linked, MainOk, HeightsOk;
    assert node.log[..s.usable][i] == store;
    assert Recoverable(node.c, node.p, store);
    restarted := new Chain.Open(node.c, node.p, store);
    ViewFacts(restarted.c, restarted.p, restarted.disk.index, restarted.Memory());
  }

  /**
   * A node in sync is stopped and started again. All stored blocks are known then, so its tip is still the best exactly
   * when no block beats it that was stored and not admitted; after a first start such a block is invalid.
   */
  method Restart(node: Chain) returns (restarted: Chain)
    requires node.Valid() && node.InSync() && node.BestTip()
    ensures fresh(restarted) && restarted.c == node.c && restarted.p == node.p && restarted.Valid() && restarted.InSync()
    ensures restarted.tipHash == node.tipHash && restarted.utxoSet == node.utxoSet && restarted.hashByHeight == node.hashByHeight
    ensures restarted.BestTip() <==> Unbeaten(node.disk.index, node.disk.index.Keys - node.admitted, node.tipHash)
    ensures OnlyBadLeft(node.c, node.p, node.disk.index, node.admitted) && !HasBad(node.c, node.p, node.disk.index) ==> restarted.BestTip()
  {
    hide EnvOk, Recoverable, BestOf, Unbeaten, Linked, MainOk, CoinsAt, Chain.Valid, SelectedTip, HasBad, OnlyBadLeft, Unused;
    node.StartValid();
    node.Tells();
    SelectedIs(node.c, node.p, node.disk);
    restarted := new Chain.Open(node.c, node.p, node.disk);
    restarted.Tells();
    SameChain(node.disk.index, node.Memory(), restarted.Memory());
    BestIfUnbeaten(node.disk.index, node.admitted, node.tipHash);
    NoneLeft(node.c, node.p, node.disk.index, node.admitted, node.tipHash);
  }

  lemma {:induction false} SelectedIs(c: Crypto, p: ChainParams, d: Disk)
    requires Recoverable(c, p, d) && d.tip == d.best
    ensures Selectable(d) && SelectedTip(d) == d.tip.value && !Unused(c, p, d)
  {
    hide TreeOk, UndoOk, CoinsAt;
  }

  lemma {:induction false} NoneLeft(c: Crypto, p: ChainParams, ix: Index, admitted: set<Hash>, tip: Hash)
    ensures OnlyBadLeft(c, p, ix, admitted) && tip in ix ==> HasBad(c, p, ix) || Unbeaten(ix, ix.Keys - admitted, tip)
  {
    hide Good;
    if OnlyBadLeft(c, p, ix, admitted) {
      if h :| h in ix.Keys - admitted { assert !Good(c, p, ix, h); }
    }
  }
}
