/** Mainnet as shipped (internal/params/networks.go), and what holds of every node on it. */
module Network {
  import opened Types
  import opened Arith
  import opened Params
  import opened Utxo
  import opened Codec
  import opened Target
  import opened Headers
  import opened MedianTime
  import opened BlockRules
  import opened History
  import opened Supply
  import opened BlockTree
  import opened ChainState
  import opened ForkChoice
  import Chain

  // --------------------------------------------------------------- every node, any network

  /** Two trees that hold a block hold the same path to it. */
  lemma {:induction false} PathAgrees(c: Crypto, p: ChainParams, a: Index, b: Index, h: Hash)
    requires Ideal(c) && TreeOk(c, p, a) && TreeOk(c, p, b) && h in a && h in b
    ensures Linked(a) && Linked(b) && Path(a, h) == Path(b, h)
    decreases a[h].height
  {
    hide StructureOk, CalcWork, Ideal, HeadersOk;
    assert LinkedAt(a, h) && NodeOk(c, p, a, h) && LinkedAt(b, h) && NodeOk(c, p, b, h);
    WorkAgrees(c, p, a, b, h);
    if a[h].height > 0 {
      SameBlock(c, p, a[h].block, b[h].block, a[h].height);
      PathAgrees(c, p, a, b, Prev(a[h]));
    }
  }

  lemma {:induction false} SameBlock(c: Crypto, p: ChainParams, x: Block, y: Block, n: nat)
    requires Ideal(c) && StructureOk(c, p, x, n) && StructureOk(c, p, y, n) && c.blockId(x.header) == c.blockId(y.header)
    ensures x == y
  {
    HeaderDeterminesBlock(c, p, x, y, n, n);
  }

  /** Two nodes that admitted the same blocks agree on the tip, the main chain and the UTXO set, whatever came when. */
  lemma {:induction false} NodesAgree(m: Chain.Chain, n: Chain.Chain)
    requires m.c == n.c && m.p == n.p && m.Valid() && n.Valid() && m.BestTip() && n.BestTip() && m.admitted == n.admitted
    ensures m.tipHash == n.tipHash && m.tipHeight == n.tipHeight && m.tipWork == n.tipWork
    ensures m.hashByHeight == n.hashByHeight && m.utxoSet == n.utxoSet
  {
    hide TreeOk, UndoOk, ViewOk, Ideal, BestOf;
    var c, p := m.c, m.p;
    SameBlocksSameTip(c, p, m.disk.index, n.disk.index, m.admitted, m.tipHash, n.tipHash);
    ViewFacts(c, p, m.disk.index, m.Memory());
    ViewFacts(c, p, n.disk.index, n.Memory());
    WorkAgrees(c, p, m.disk.index, n.disk.index, m.tipHash);
    PathAgrees(c, p, m.disk.index, n.disk.index, m.tipHash);
    forall i: nat ensures i in m.hashByHeight <==> i in n.hashByHeight { m.MainHeight(i); n.MainHeight(i); }
    forall i: nat | i in m.hashByHeight ensures m.hashByHeight[i] == n.hashByHeight[i] {
      m.MainHeight(i);
      MainHashAt(m, i);
      MainHashAt(n, i);
    }
  }

  /** The main chain lists the hashes of the path to the tip. */
  lemma {:induction false} MainHashAt(n: Chain.Chain, i: nat)
    requires n.Valid() && i <= n.tipHeight
    ensures i in n.hashByHeight && Linked(n.disk.index) && n.tipHash in n.disk.index
    ensures i < |Path(n.disk.index, n.tipHash)|
    ensures n.hashByHeight[i] == n.c.blockId(Path(n.disk.index, n.tipHash)[i].header)
  {
    hide UndoOk, ViewOk, Ideal, MainOk;
    ViewFacts(n.c, n.p, n.disk.index, n.Memory());
    n.MainIsMain();
    MainAt(n.disk.index, n.hashByHeight, n.tipHeight, n.tipHash, i);
    MainBlockAt(n.disk.index, n.hashByHeight, n.tipHeight, n.tipHash, i);
    var h := n.hashByHeight[i];
    assert LinkedAt(n.disk.index, h) && NodeOk(n.c, n.p, n.disk.index, h);
  }

  /** The path to the tip of any reachable node, as an accepted chain. */
  lemma {:induction false} TipPath(n: Chain.Chain) returns (blocks: seq<Block>)
    requires n.Valid()
    ensures Ideal(n.c) && GenesisOk(n.c, n.p) && ChainOk(n.c, n.p, blocks)
    ensures |blocks| == n.tipHeight + 1 && n.utxoSet == Replay(n.c.txId, blocks)
    ensures Linked(n.disk.index) && n.tipHash in n.disk.index && blocks == Path(n.disk.index, n.tipHash)
  {
    hide TreeOk, UndoOk, ViewOk, Ideal, GenesisOk, ChainOk, Replay;
    ViewFacts(n.c, n.p, n.disk.index, n.Memory());
    blocks := Path(n.disk.index, n.tipHash);
  }

  /** What any reachable node has as coins: exactly the outputs of its main chain that nothing on that chain spends. */
  lemma {:induction false} NodeCoins(n: Chain.Chain, i: nat, t: nat, o: nat)
    requires n.Valid()
    ensures Linked(n.disk.index) && n.tipHash in n.disk.index
    ensures var blocks := Path(n.disk.index, n.tipHash);
            IsOutput(blocks, i, t, o) ==>
              var tx := blocks[i].transactions[t];
              var op, out := OutPoint(n.c.txId(tx), o), tx.outputs[o];
              && (op in n.utxoSet <==> op !in SpentOn(blocks) && Kept(out, i))
              && (op in n.utxoSet ==> n.utxoSet[op] == CoinOf(out, i, IsCoinbase(tx)))
  {
    hide Ideal, GenesisOk, ChainOk, Replay, SpentOn, Kept, IsCoinbase, Chain.Chain.Valid;
    var blocks := TipPath(n);
    if IsOutput(blocks, i, t, o) { OutputIsCoin(n.c, n.p, blocks, i, t, o); }
  }

  /** The tip of a node that has the best tip: no admitted block of equal work has a smaller byte where the hashes first differ. */
  lemma {:induction false} NodeTie(n: Chain.Chain, h: Hash, i: nat)
    requires n.Valid() && n.BestTip() && h in n.admitted && h in n.disk.index && n.disk.index[h].work == n.tipWork
    requires i < |h| && i < |n.tipHash| && h[..i] == n.tipHash[..i] && h[i] != n.tipHash[i]
    ensures n.tipHash[i] < h[i]
  {
    hide TreeOk, UndoOk, ViewOk, EnvOk;
    ViewFacts(n.c, n.p, n.disk.index, n.Memory());
    BestHasSmallerByte(n.disk.index, n.admitted, n.tipHash, h, i);
  }

  /** No node ever holds more value than the genesis outputs and the subsidies up to its tip. */
  lemma {:induction false} NodeSupply(n: Chain.Chain)
    requires n.Valid()
    ensures Total(n.utxoSet) <= Total(GenesisCoins(n.c.txId, n.p.genesisBlock.transactions)) + Issued(n.p, n.tipHeight)
  {
    hide Ideal, GenesisOk, ChainOk, Replay, Total, GenesisCoins, Chain.Chain.Valid;
    var blocks := TipPath(n);
    SupplyBound(n.c, n.p, blocks);
  }

  lemma {:induction false} StoredRules(c: Crypto, p: ChainParams, ix: Index, h: Hash)
    requires TreeOk(c, p, ix) && h in ix
    ensures Linked(ix) && Sane(p) && HeadersOk(p, HeadersOf(Path(ix, h)))
  {
    hide HeadersOk, NodeOk, Path;
    assert RulesAt(p, ix, h);
  }

  /** Every stored block, main chain or not: its work is the sum over its path and its target is within the limit. */
  lemma {:induction false} NodeBlock(n: Chain.Chain, h: Hash)
    requires n.Valid() && h in n.disk.index
    ensures Linked(n.disk.index) && n.disk.index[h].work == PathWork(Path(n.disk.index, h))
    ensures WithinLimit(n.p, n.p.genesisBlock.header.bits) && WithinLimit(n.p, n.p.initialBits) ==>
              WithinLimit(n.p, n.disk.index[h].block.header.bits)
  {
    hide TreeOk, UndoOk, ViewOk, Ideal, GenesisOk, MayFollow, CompactToBig, PathWork, Path, HeadersOk;
    var ix, p := n.disk.index, n.p;
    StoredRules(n.c, p, ix, h);
    WorkIsPathSum(n.c, p, ix, h);
    if WithinLimit(p, p.genesisBlock.header.bits) && WithinLimit(p, p.initialBits) {
      TargetsStayWithinLimit(p, HeadersOf(Path(ix, h)));
    }
  }

  /** The branches of a node keep median time: a stored block's is never below that of any ancestor. */
  lemma {:induction false} NodeMedianTime(n: Chain.Chain, h: Hash, i: nat)
    requires n.Valid() && h in n.disk.index && n.p.minTimestampRule == Median11 && i <= n.disk.index[h].height
    ensures Linked(n.disk.index)
    ensures var path := HeadersOf(Path(n.disk.index, h));
            MedianTimePast(i, OnPath(path[..i + 1])) <= MedianTimePast(n.disk.index[h].height, OnPath(path))
  {
    hide TreeOk, UndoOk, ViewOk, Ideal, GenesisOk, MayFollow, MedianTimePast, OnPath, Path, HeadersOk;
    StoredRules(n.c, n.p, n.disk.index, h);
    MedianTimeNeverDecreases(n.p, HeadersOf(Path(n.disk.index, h)), i);
  }

  // --------------------------------------------------------------------------- mainnet

  const GENESIS_TAG: Bytes := [102, 97, 105, 114, 99, 104, 97, 105, 110, 32, 109, 97, 105, 110]
                            + [110, 101, 116, 32, 103, 101, 110, 101, 115, 105, 115]

  const MAINNET_BITS: u32 := 0x1e0f_ffff

  /** The shipped mainnet genesis and economics; fields the theorems do not depend on are left open. */
  ghost predicate IsMainnet(p: ChainParams) {
    var txs := p.genesisBlock.transactions;
    && p.genesisBlock.header.prevBlock == ZERO_HASH && p.genesisBlock.header.bits == MAINNET_BITS
    && |txs| == 1 && IsCoinbase(txs[0]) && txs[0].inputs[0].signatureScript == GENESIS_TAG
    && |txs[0].outputs| == 1 && txs[0].outputs[0].pkScript == [0]
    && p.retargetInterval == 144 && p.targetTimespan == 86400 && p.minTimestampRule == Median11
    && p.initialBits == MAINNET_BITS && p.minBits == MAINNET_BITS
    && p.initialSubsidy == 50_0000_0000 && p.subsidyHalvingInterval == 210_000
  }

  /** The shipped parameters meet the standing hypotheses, for any ideal hashing. */
  lemma {:induction false} MainnetMeetsHypotheses(c: Crypto, p: ChainParams)
    requires Ideal(c) && IsMainnet(p)
    ensures EnvOk(c, p) && MainnetEconomics(c, p)
  {
    hide Ideal;
    var txs := p.genesisBlock.transactions;
    assert GENESIS_TAG[0] == 102 && |GENESIS_TAG| == 25;
    assert DecodeHeight(GENESIS_TAG) == None;
  }

  /** The mainnet target fits 256 bits, so every accepted block carries work. */
  lemma {:induction false} MainnetWorkCounts(c: Crypto, p: ChainParams)
    requires IsMainnet(p) && forall h :: FromLE(c.blockId(h)) > 0
    ensures PositiveLimit(c, p)
  {
    hide Pow256, FromLE;
    assert CompactToBig(MAINNET_BITS) == 0x0f_ffff * Pow256(27);
    Pow256Add(27, 5);
    SmallPowers();
    Pow256Add(3, 2);
    MulMono(Pow256(27), 0x0f_ffff, Pow256(5) - 1);
    assert Pow256(27) * (Pow256(5) - 1) == Pow256(27) * Pow256(5) - Pow256(27);
  }

  /** On mainnet no node ever holds more than MaxMoneyValue, so the guarded sums never meet their sentinel. */
  lemma {:induction false} MainnetNodeSupply(n: Chain.Chain)
    requires n.Valid() && IsMainnet(n.p)
    ensures Total(n.utxoSet) <= MAX_MONEY < TWO64 - 1
  {
    hide Ideal, GenesisOk, ChainOk, Replay, Total, Chain.Chain.Valid, IsMainnet, MainnetEconomics;
    var blocks := TipPath(n);
    MainnetMeetsHypotheses(n.c, n.p);
    MainnetSupply(n.c, n.p, blocks);
  }

  /** A mainnet block at the limit is worth 1048577 units of work. */
  lemma {:induction false} MainnetBlockWork()
    ensures CalcWork(MAINNET_BITS) == 1_048_577
  {
    hide Pow256;
    var p := Pow256(27);
    assert CompactToBig(MAINNET_BITS) == 0x0f_ffff * p;
    Pow256Add(27, 5);
    Pow256Add(3, 2);
    SmallPowers();
    Pow256Mono(3, 27);
    assert Pow256(5) == 0x100_0000_0000;
    DivUnique(Pow256(32), 0x0f_ffff * p + 1, 1_048_577, p - 1_048_577);
  }
}
