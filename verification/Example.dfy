/** A small network on which blocks get in, with some blocks for it. */
module Example {
  import opened Types
  import opened Arith
  import opened Params
  import opened Codec
  import opened Merkle
  import opened Utxo
  import opened TxValidation
  import opened Target
  import opened BlockRules
  import opened History
  import opened Headers
  import opened BlockTree
  import opened ChainState
  import opened ForkChoice
  import opened Decision
  import opened Witness

  const BITS: u32 := 0x207f_ffff

  /** Any start time, which is also the version of every transaction. */
  type Start = x: int | 0 <= x < 1_000_000_000

  /** Collision-free hashing whose block hashes meet every target, and scripts that always pass. */
  ghost predicate Friendly(c: Crypto) {
    && Ideal(c) && (forall sig, pk, tx, i :: c.verify(sig, pk, tx, i))
    && (forall h :: FromLE(c.blockId(h)) == 3) && (forall tx :: c.txId(tx) != ZERO_HASH)
  }

  /** There is such hashing. */
  lemma {:induction false} FriendlyExists()
    ensures Friendly(IdealCrypto((_, _, _, _) => true))
  {
    hide TxCode, HeaderHash, NodeCode, Ideal;
    IdealIsPossible((_, _, _, _) => true);
    forall h ensures FromLE(HeaderHash(h)) == 3 { HeaderHashIsSmall(h); }
    forall tx ensures TxCode(tx) != ZERO_HASH { TxCodeIsNotZero(tx); }
  }

  function Pay(k: Start, input: TxInput): Transaction {
    Transaction(k, [input], [TxOutput(1, [])], 0)
  }

  function Coinbase(k: Start, script: Bytes): Transaction {
    Pay(k, TxInput(OutPoint(ZERO_HASH, 0xFFFF_FFFF), script, 0xFFFF_FFFF))
  }

  function Mined(c: Crypto, prev: Hash, txs: seq<Transaction>, time: u32): Block {
    Block(Header(1, prev, MerkleRoot(c.node, IdList(c.txId, txs)), time, BITS, 0), txs)
  }

  function Id(c: Crypto, b: Block): Hash {
    c.blockId(b.header)
  }

  // Genesis; a block that mints a coin; one that spends it; and the next.
  function Genesis(c: Crypto, k: Start): Block {
    Mined(c, ZERO_HASH, [Coinbase(k, [102, 97, 105, 114])], k)
  }

  function First(c: Crypto, k: Start): Block {
    Mined(c, Id(c, Genesis(c, k)), [Coinbase(k, [1, 1])], k + 1)
  }

  function Minted(c: Crypto, k: Start): OutPoint {
    OutPoint(c.txId(Coinbase(k, [1, 1])), 0)
  }

  function Spend(c: Crypto, k: Start): Transaction {
    Pay(k, TxInput(Minted(c, k), [], 0))
  }

  function Second(c: Crypto, k: Start): Block {
    Mined(c, Id(c, First(c, k)), [Coinbase(k, [1, 2]), Spend(c, k)], k + 2)
  }

  function Third(c: Crypto, k: Start): Block {
    Mined(c, Id(c, Second(c, k)), [Coinbase(k, [1, 3])], k + 3)
  }

  /** A block that only mints. */
  function Plain(c: Crypto, k: Start, prev: Hash, h: u8, time: u32): Block {
    Mined(c, prev, [Coinbase(k, [1, h])], time)
  }

  function Net(c: Crypto, k: Start): ChainParams {
    ChainParams(Genesis(c, k), 1, 1, 0, PrevPlusOne, BITS, BITS, true, 0xFFFF_FFFF, 0xFFFF_FFFF, 1, 0, 0, 1, 1, 0)
  }

  // ---------------------------------------------------------------------- the block structure

  lemma {:induction false} Heights(h: u8)
    ensures DecodeHeight([1, h]) == Some(h)
  {
    var script: Bytes := [1, h];
    assert script[1..2] == [h];
    assert FromLE([h]) == h + 256 * FromLE([h][1..]) && [h][1..] == [];
  }

  lemma {:induction false} NetIsUsable(c: Crypto, k: Start)
    requires Friendly(c)
    ensures EnvOk(c, Net(c, k))
  {
    hide Ideal, MerkleRoot, FromLE;
    var script: Bytes := [102, 97, 105, 114];
    assert DecodeHeight(script) == None;
  }

  /** A mined block of one coinbase for its height, or of that and one payment. */
  ghost predicate Fits(c: Crypto, b: Block, h: u8) {
    && 0 < h && |b.transactions| in {1, 2} && b.header.merkleRoot == MerkleRoot(c.node, IdList(c.txId, b.transactions))
    && b.header.bits == BITS
    && IsCoinbase(b.transactions[0]) && b.transactions[0].inputs[0].signatureScript == [1, h] && |b.transactions[0].outputs| == 1
    && (|b.transactions| == 2 ==> !IsCoinbase(b.transactions[1]))
  }

  lemma {:induction false} StructureHolds(c: Crypto, k: Start, b: Block, h: u8)
    requires Friendly(c) && Fits(c, b, h)
    ensures StructureOk(c, Net(c, k), b, h)
  {
    hide MerkleRoot, EncBlock, DecodeHeight, Genesis;
    Heights(h);
    var txs := b.transactions;
    OneUnit(txs[0].outputs);
  }

  lemma {:induction false} OneUnit(outs: seq<TxOutput>)
    ensures |outs| == 1 ==> SumOut(outs) == outs[0].value
  {
    if |outs| == 1 { assert outs[..0] == [] && SumOut(outs[..0]) == 0; }
  }

  lemma {:induction false} NotCoinbase(c: Crypto, k: Start)
    requires Friendly(c)
    ensures Minted(c, k).hash != ZERO_HASH && !IsCoinbase(Spend(c, k))
  {
  }

  // --------------------------------------------------------------------------- their inputs

  lemma {:induction false} MintingStep(c: Crypto, k: Start, s: Coins, height: nat, tx: Transaction)
    requires IsCoinbase(tx) && tx.outputs == [TxOutput(1, [])]
    ensures TxsOk(c.verify, Net(c, k), s, height, [tx]) && Fees(s, [tx]) == 0 && SpentSet([tx]) == {}
  {
    hide TxOk, IsCoinbase, Net;
    var txs := [tx];
    assert txs[..0] == [];
    assert Fees(s, txs[..0]) == 0 && SpentSet(txs[..0]) == {} && TxsOk(c.verify, Net(c, k), s, height, txs[..0]);
  }

  lemma {:induction false} MintingPasses(c: Crypto, k: Start, s: Coins, height: nat, b: Block)
    requires |b.transactions| == 1 && IsCoinbase(b.transactions[0]) && b.transactions[0].outputs == [TxOutput(1, [])]
    ensures BlockInputsOk(c.verify, Net(c, k), s, height, b) && SpentSet(b.transactions) == {}
  {
    hide TxsOk, IsCoinbase, Genesis, SpentSet, Fees;
    var tx := b.transactions[0];
    assert b.transactions == [tx];
    MintingStep(c, k, s, height, tx);
    OneUnit(tx.outputs);
  }

  lemma {:induction false} SpendIsOk(c: Crypto, k: Start, s: Coins)
    requires Friendly(c)
    requires Minted(c, k) in s && s[Minted(c, k)] == Entry(1, [], 1, true)
    ensures TxOk(c.verify, Net(c, k), s, 2, Spend(c, k)) && FeeOf(s, Spend(c, k)) == 0 && InputSet(Spend(c, k).inputs) == {Minted(c, k)}
  {
    hide Genesis;
    var tx := Spend(c, k);
    assert tx.inputs[..0] == [];
    assert SumIn(s, tx.inputs[..0]) == 0 && InputSet(tx.inputs[..0]) == {};
    OneUnit(tx.outputs);
  }

  lemma {:induction false} SpendingPasses(c: Crypto, k: Start, s: Coins)
    requires Friendly(c)
    requires Minted(c, k) in s && s[Minted(c, k)] == Entry(1, [], 1, true)
    ensures BlockInputsOk(c.verify, Net(c, k), s, 2, Second(c, k)) && SpentSet(Second(c, k).transactions) == {Minted(c, k)}
  {
    hide MerkleRoot, TxOk, Genesis, First, Spend, FeeOf, IsCoinbase, Coinbase;
    var txs, cb, tx := Second(c, k).transactions, Coinbase(k, [1, 2]), Spend(c, k);
    assert txs == [cb, tx] && txs[..1] == [cb];
    CoinbaseIs(k, [1, 2]);
    MintingStep(c, k, s, 2, cb);
    NotCoinbase(c, k);
    SpendIsOk(c, k, s);
    OneUnit(cb.outputs);
  }

  lemma {:induction false} CoinbaseIs(k: Start, script: Bytes)
    ensures IsCoinbase(Coinbase(k, script)) && Coinbase(k, script).outputs == [TxOutput(1, [])]
    ensures Coinbase(k, script).inputs[0].signatureScript == script
  {
  }

  // ------------------------------------------------------------------------------- the chain

  lemma {:induction false} GenesisIsAccepted(c: Crypto, k: Start)
    ensures ChainOk(c, Net(c, k), [Genesis(c, k)]) && Replay(c.txId, [Genesis(c, k)]) == GenesisCoins(c.txId, Genesis(c, k).transactions)
  {
    hide Genesis;
  }

  lemma {:induction false} FirstIsAccepted(c: Crypto, k: Start)
    requires Friendly(c)
    ensures ChainOk(c, Net(c, k), [Genesis(c, k), First(c, k)]) && StructureOk(c, Net(c, k), First(c, k), 1)
    ensures var s := Replay(c.txId, [Genesis(c, k), First(c, k)]);
            Minted(c, k) in s && s[Minted(c, k)] == Entry(1, [], 1, true)
  {
    hide MerkleRoot, StructureOk, BlockInputsOk, EncBlock, Genesis, Coinbase, ChainOk, Replay, Net, GenesisCoins;
    var g, b, tx := [Genesis(c, k)], First(c, k), Coinbase(k, [1, 1]);
    assert b.transactions == [tx];
    CoinbaseIs(k, [1, 1]);
    GenesisIsAccepted(c, k);
    StructureHolds(c, k, b, 1);
    MintingPasses(c, k, Replay(c.txId, g), 1, b);
    ReplayExtends(c, Net(c, k), g, b);
    assert g + [b] == [Genesis(c, k), First(c, k)];
    ConnectClosedForm(c.txId, Replay(c.txId, g), b, 1);
    assert b.transactions[..0] == [];
    FirstOutputsAre(c.txId(tx), tx, 1, 1);
    assert BlockOutputs(c.txId, b.transactions, 1) == BlockOutputs(c.txId, b.transactions[..0], 1) + OutputsOf(c.txId(tx), tx, 1);
    assert Minted(c, k) in OutputsOf(c.txId(tx), tx, 1);
  }

  lemma {:induction false} SecondIsAccepted(c: Crypto, k: Start)
    requires Friendly(c)
    ensures ChainOk(c, Net(c, k), [Genesis(c, k), First(c, k), Second(c, k)]) && StructureOk(c, Net(c, k), Second(c, k), 2)
    ensures SpentSet(Second(c, k).transactions) == {Minted(c, k)}
  {
    hide MerkleRoot, StructureOk, BlockInputsOk, ChainOk, Replay, Genesis, First, Net, Coinbase, Spend, SpentSet;
    FirstIsAccepted(c, k);
    NotCoinbase(c, k);
    CoinbaseIs(k, [1, 2]);
    var two := [Genesis(c, k), First(c, k)];
    StructureHolds(c, k, Second(c, k), 2);
    SpendingPasses(c, k, Replay(c.txId, two));
    ReplayExtends(c, Net(c, k), two, Second(c, k));
    assert two + [Second(c, k)] == [Genesis(c, k), First(c, k), Second(c, k)];
  }

  // -------------------------------------------------------------------------------- the tree

  function Origin(c: Crypto, k: Start): Index {
    map[Id(c, Genesis(c, k)) := GenesisRec(Net(c, k))]
  }

  ghost function Child(c: Crypto, ix: Index, b: Block): Index {
    ix[Id(c, b) := ChildRec(ix, b)]
  }

  lemma {:induction false} GenesisHeader(c: Crypto, k: Start)
    ensures Genesis(c, k).header.timestamp == k && Genesis(c, k).header.bits == BITS
  {
    hide MerkleRoot;
  }

  lemma {:induction false} OriginIsTree(c: Crypto, k: Start)
    requires Friendly(c)
    ensures var ix, g := Origin(c, k), Id(c, Genesis(c, k));
            && TreeOk(c, Net(c, k), ix) && Linked(ix) && g in ix && Path(ix, g) == [Genesis(c, k)]
            && ix[g] == Rec(Genesis(c, k), 0, CalcWork(BITS)) && Genesis(c, k).header.timestamp == k && Good(c, Net(c, k), ix, g)
  {
    hide EnvOk, CalcWork, Genesis;
    NetIsUsable(c, k);
    GenesisHeader(c, k);
    var ix, h := Origin(c, k), Id(c, Genesis(c, k));
    assert GenesisHash(c, Net(c, k)) == h;
    forall x {:trigger LinkedAt(ix, x)} | x in ix ensures LinkedAt(ix, x) {}
    assert HeadersOf([Genesis(c, k)]) == [Genesis(c, k).header];
    forall x {:trigger NodeOk(c, Net(c, k), ix, x)} | x in ix ensures LinkedAt(ix, x) && NodeOk(c, Net(c, k), ix, x) {}
    forall x {:trigger RulesAt(Net(c, k), ix, x)} | x in ix ensures RulesAt(Net(c, k), ix, x) {}
  }

  /** A child that fits, with a later time, on any tree of the network. */
  ghost predicate MayGrow(c: Crypto, k: Start, ix: Index, b: Block, h: u8) {
    && TreeOk(c, Net(c, k), ix) && b.header.prevBlock in ix && ix[b.header.prevBlock].height + 1 == h && Fits(c, b, h)
    && ix[b.header.prevBlock].block.header.timestamp < b.header.timestamp
  }

  /** The tree with the child in it. */
  ghost predicate Grown(c: Crypto, k: Start, ix: Index, b: Block, ix': Index) {
    && TreeOk(c, Net(c, k), ix') && Linked(ix) && Linked(ix') && Extends(ix, ix') && Id(c, b) in ix' && b.header.prevBlock in ix
    && ix'[Id(c, b)] == ChildRec(ix, b) && ix'.Keys == ix.Keys + {Id(c, b)}
    && Path(ix', Id(c, b)) == Path(ix, b.header.prevBlock) + [b]
  }

  lemma {:induction false} ChildGrows(c: Crypto, k: Start, ix: Index, b: Block, h: u8)
    requires Friendly(c) && MayGrow(c, k, ix, b, h)
    ensures Grown(c, k, ix, b, Child(c, ix, b))
    ensures Sane(Net(c, k)) && MayFollow(Net(c, k), HeadersOf(Path(ix, b.header.prevBlock)), b.header)
  {
    hide TreeOk, EnvOk, StructureOk, Genesis, CalcWork, Fits;
    var parent := b.header.prevBlock;
    NetIsUsable(c, k);
    BitsAreRight(c, b, h);
    StructureHolds(c, k, b, h);
    TreeIsLinked(c, Net(c, k), ix);
    var headers := HeadersOf(Path(ix, parent));
    assert headers[|headers| - 1] == ix[parent].block.header;
    ChildIsNotGenesis(c, Net(c, k), ix, b);
    InsertKeepsTree(c, Net(c, k), ix, Id(c, b), ChildRec(ix, b));
    TreeIsLinked(c, Net(c, k), Child(c, ix, b));
  }

  lemma {:induction false} BitsAreRight(c: Crypto, b: Block, h: u8)
    requires Fits(c, b, h)
    ensures b.header.bits == BITS && b.transactions != []
  {
    hide MerkleRoot;
  }

  lemma {:induction false} GrownFacts(c: Crypto, k: Start, ix: Index, b: Block, ix': Index)
    requires Grown(c, k, ix, b, ix')
    ensures Linked(ix) && b.header.prevBlock in ix
  {
    hide TreeOk, Linked, Extends, Path;
  }

  lemma {:induction false} NotAhead(c: Crypto, k: Start, h: Header, now: u32)
    requires h.timestamp <= now
    ensures NotTooFuture(Net(c, k), h, now)
  {
    hide Genesis;
  }

  /** It meets proof of work, difficulty, time and structure rules. */
  lemma {:induction false} GetsIn(c: Crypto, k: Start, ix: Index, b: Block, h: u8, now: u32)
    requires Friendly(c) && MayGrow(c, k, ix, b, h) && b.header.timestamp <= now
    ensures Grown(c, k, ix, b, Child(c, ix, b))
    ensures Linked(ix) && Sane(Net(c, k)) && b.header.prevBlock in ix && b.transactions != []
    ensures NewBlockOk(c, Net(c, k), ix, Id(c, b), b, now)
  {
    hide MerkleRoot, StructureOk, TreeOk, MayFollow, PowOk, Genesis, Linked, Friendly, HeadersOf, Path, Fits, Extends, Net, NotTooFuture, Grown, Sane;
    ChildGrows(c, k, ix, b, h);
    GrownFacts(c, k, ix, b, Child(c, ix, b));
    BitsAreRight(c, b, h);
    StructureHolds(c, k, b, h);
    SmallMeetsTarget(c, b.header);
    NotAhead(c, k, b.header, now);
  }

  /** On a validated parent, with valid inputs, it is validated too; a block that takes too much never is. */
  lemma {:induction false} ValidatedIff(c: Crypto, k: Start, ix: Index, b: Block, h: u8)
    requires Friendly(c) && MayGrow(c, k, ix, b, h) && Good(c, Net(c, k), ix, b.header.prevBlock) && b.transactions != []
    ensures Linked(ix) && b.header.prevBlock in ix
    ensures Good(c, Net(c, k), Child(c, ix, b), Id(c, b)) <==>
            BlockInputsOk(c.verify, Net(c, k), CoinsAt(c, ix, b.header.prevBlock), h, b)
  {
    hide MerkleRoot, StructureOk, TreeOk, Genesis, Friendly, Fits, ChainOk, Replay, Net, BlockInputsOk, Path;
    ChildGrows(c, k, ix, b, h);
    StructureHolds(c, k, b, h);
    var path, n := Path(ix, b.header.prevBlock), |Path(ix, b.header.prevBlock)|;
    assert (path + [b])[..n] == path && (path + [b])[n] == b && n == h;
    ChainStepIff(c, Net(c, k), path, b);
  }

  lemma {:induction false} ChainStepIff(c: Crypto, p: ChainParams, path: seq<Block>, b: Block)
    requires ChainOk(c, p, path) && StructureOk(c, p, b, |path|) && b.transactions != []
    ensures ChainOk(c, p, path + [b]) <==> BlockInputsOk(c.verify, p, Replay(c.txId, path), |path|, b)
  {
    hide StructureOk, BlockInputsOk, Replay;
    assert (path + [b])[..|path|] == path;
  }

  lemma {:induction false} PlainFits(c: Crypto, k: Start, prev: Hash, h: u8, time: u32)
    requires h > 0
    ensures var b := Plain(c, k, prev, h, time);
            && Fits(c, b, h) && b.transactions == [Coinbase(k, [1, h])] && b.header.prevBlock == prev && b.header.timestamp == time
            && b.header.bits == BITS
  {
    hide MerkleRoot, Coinbase;
    CoinbaseIs(k, [1, h]);
  }

  /** A block that only mints gets in, and is validated if its parent is. */
  lemma {:induction false} PlainGetsIn(c: Crypto, k: Start, ix: Index, prev: Hash, h: u8, time: u32, now: u32)
    requires Friendly(c) && TreeOk(c, Net(c, k), ix) && prev in ix && ix[prev].height + 1 == h
    requires ix[prev].block.header.timestamp < time <= now
    ensures var b := Plain(c, k, prev, h, time);
            && MayGrow(c, k, ix, b, h) && Grown(c, k, ix, b, Child(c, ix, b)) && Sane(Net(c, k)) && b.header.timestamp == time
            && b.transactions != [] && b.header.prevBlock == prev && b.header.bits == BITS
            && NewBlockOk(c, Net(c, k), ix, Id(c, b), b, now)
            && BlockInputsOk(c.verify, Net(c, k), if Good(c, Net(c, k), ix, prev) then CoinsAt(c, ix, prev) else map[], h, b)
            && (Good(c, Net(c, k), ix, prev) ==> Good(c, Net(c, k), Child(c, ix, b), Id(c, b)))
  {
    hide MerkleRoot, StructureOk, TreeOk, Genesis, Linked, Friendly, Good, CoinsAt, Net, BlockInputsOk, NewBlockOk, Coinbase, Fits, Plain,
         Extends, Path, SpentSet, Child;
    var b := Plain(c, k, prev, h, time);
    PlainFits(c, k, prev, h, time);
    GetsIn(c, k, ix, b, h, now);
    CoinbaseIs(k, [1, h]);
    var s := if Good(c, Net(c, k), ix, prev) then CoinsAt(c, ix, prev) else map[];
    MintingPasses(c, k, s, h, b);
    if Good(c, Net(c, k), ix, prev) { ValidatedIff(c, k, ix, b, h); }
  }

  lemma {:induction false} SmallMeetsTarget(c: Crypto, h: Header)
    requires Friendly(c)
    ensures PowOk(c.blockId(h), BITS)
  {
    hide Pow256, FromLE, Ideal;
    BitsAreSmall();
    PowMeansBelowTarget(c.blockId(h), BITS);
  }

  lemma {:induction false} BitsAreSmall()
    ensures 3 <= CompactToBig(BITS) < Pow256(32)
  {
    hide Pow256;
    assert CompactToBig(BITS) == 0x7f_ffff * Pow256(29);
    Pow256Add(3, 29);
    SmallPowers();
    MulMono(Pow256(29), 0x7f_ffff, Pow256(3) - 1);
    MulMono(0x7f_ffff, 1, Pow256(29));
  }

  lemma {:induction false} BlocksHaveWork()
    ensures CalcWork(BITS) > 0
  {
    hide Pow256;
    BitsAreSmall();
    WorkIsPositiveIff(BITS);
  }

  /** The work of a chain of height `n`. */
  ghost function Stacked(n: nat): nat {
    if n == 0 then CalcWork(BITS) else Stacked(n - 1) + CalcWork(BITS)
  }

  /** Blocks with different headers are different. */
  lemma {:induction false} DifferentTimes(c: Crypto, a: Block, b: Block)
    requires Friendly(c) && a.header.timestamp != b.header.timestamp
    ensures Id(c, a) != Id(c, b)
  {
  }

  // ------------------------------------------------------------------------------- views of it

  /** A node that knows everything stored, as after a restart, on any validated tip. */
  lemma {:induction false} ViewOn(c: Crypto, p: ChainParams, ix: Index, tip: Hash) returns (v: View)
    requires EnvOk(c, p) && TreeOk(c, p, ix) && Good(c, p, ix, tip)
    ensures ViewOk(c, p, ix, v) && v.tip == tip && v.heightOf.Keys == ix.Keys
    decreases ix[tip].height
  {
    hide ChainOk, TreeOk, CoinsAt, EnvOk, Linked;
    assert LinkedAt(ix, tip) by { TreeIsLinked(c, p, ix); LinkedTo(ix, tip); }
    if ix[tip].height == 0 {
      v := View(tip, 0, ix[tip].work, map[tip := 0], map[0 := tip], CoinsAt(c, ix, tip));
    } else {
      GoodWasValidated(c, p, ix, tip);
      var u := ViewOn(c, p, ix, Prev(ix[tip]));
      ViewFacts(c, p, ix, u);
      ViewExtends(c, p, ix, u, tip);
      v := View(tip, ix[tip].height, ix[tip].work, u.heightOf[tip := ix[tip].height], u.at[ix[tip].height := tip], CoinsAt(c, ix, tip));
    }
    v := v.(heightOf := map h | h in ix :: ix[h].height);
  }

  lemma {:induction false} LinkedTo(ix: Index, h: Hash)
    requires Linked(ix) && h in ix
    ensures LinkedAt(ix, h)
  {
  }
}
