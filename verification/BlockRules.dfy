/** Block structure rules (internal/consensus/validation.go) and the hash functions they use. */
module BlockRules {
  import opened Types
  import opened Arith
  import opened Params
  import opened Codec
  import opened Merkle
  import opened Utxo
  import opened TxValidation

  /** Everything the node computes with foreign code, as functions nothing here looks inside. */
  datatype Crypto = Crypto(txId: Transaction -> Hash, blockId: Header -> Hash, node: NodeHash, verify: ScriptCheck)

  /** The idealisation the theorems assume: no collisions, and a transaction id is never an inner node. */
  ghost predicate Ideal(c: Crypto) {
    && Injective(c.txId) && Injective(c.blockId) && InjectiveNode(c.node)
    && (forall tx :: IsLeaf(c.node, c.txId(tx)))
    && (forall h :: c.blockId(h) != ZERO_HASH)
  }

  // --------------------------------------------------------------- height in the coinbase

  /** The height a coinbase script encodes, if it encodes one. */
  function DecodeHeight(script: Bytes): Option<nat> {
    if |script| < 2 || |script| > 100 then None
    else if script[0] < 1 || script[0] > 4 || |script| < 1 + script[0] then None
    else Some(FromLE(script[1..1 + script[0]]))
  }

  method ValidateCoinbaseScriptSig(script: Bytes, height: nat) returns (ok: bool)
    ensures ok <==> DecodeHeight(script) == Some(height)
  {
    if |script| < 2 || |script| > 100 { return false; }
    var pushLen := script[0];
    if pushLen < 1 || pushLen > 4 || |script| < 1 + pushLen { return false; }
    var encodedHeight: nat := 0;
    var scale: nat := 1;
    for i := 0 to pushLen
      invariant scale == Pow256(i) && encodedHeight == FromLE(script[1..1 + i])
    {
      assert script[1..1 + (i + 1)] == script[1..1 + i] + [script[1 + i]];
      FromLEAppend(script[1..1 + i], script[1 + i]);
      encodedHeight := encodedHeight + scale * script[1 + i];
      scale := 256 * scale;
    }
    return encodedHeight == height;
  }

  /** What the miner writes: a four-byte push. */
  lemma {:induction false} MinerHeightDecodes(height: u32, tag: Bytes)
    requires |tag| <= 95
    ensures DecodeHeight([4] + LE(height, 4) + tag) == Some(height)
  {
    var script := [4] + LE(height, 4) + tag;
    Widths();
    FromLEInvertsLE(height, 4);
    assert script[1..5] == LE(height, 4);
  }

  // ------------------------------------------------------------------------ the structure

  function IdList(ids: TxIds, txs: seq<Transaction>): (r: seq<Hash>)
    ensures |r| == |txs| && forall i :: 0 <= i < |txs| ==> r[i] == ids(txs[i])
  {
    if txs == [] then [] else IdList(ids, txs[..|txs| - 1]) + [ids(txs[|txs| - 1])]
  }

  ghost predicate StructureOk(c: Crypto, p: ChainParams, b: Block, height: nat) {
    var txs := b.transactions;
    && txs != [] && IsCoinbase(txs[0])
    && (height > 0 ==> DecodeHeight(txs[0].inputs[0].signatureScript) == Some(height))
    && (forall i :: 1 <= i < |txs| ==> !IsCoinbase(txs[i]))
    && |txs| % TWO32 <= p.maxBlockTxCount
    && DistinctIds(c.txId, txs)
    && MerkleRoot(c.node, IdList(c.txId, txs)) == b.header.merkleRoot
    && |EncBlock(b)| % TWO32 <= p.maxBlockSize
    && SumOut(txs[0].outputs) < TWO64
  }

  method CheckDistinctIds(ids: TxIds, txs: seq<Transaction>) returns (ok: bool)
    ensures ok <==> DistinctIds(ids, txs)
  {
    var seen: set<Hash> := {};
    for i := 0 to |txs|
      invariant DistinctIds(ids, txs[..i])
      invariant forall h :: h in seen <==> exists j :: 0 <= j < i && ids(txs[j]) == h
    {
      if ids(txs[i]) in seen { return false; }
      seen := seen + {ids(txs[i])};
    }
    assert txs[..|txs|] == txs;
    return true;
  }

  method ValidateBlockStructure(c: Crypto, p: ChainParams, b: Block, height: nat) returns (ok: bool)
    ensures ok <==> StructureOk(c, p, b, height)
  {
    var txs := b.transactions;
    if |txs| == 0 || !IsCoinbase(txs[0]) { return false; }
    if height > 0 {
      var encoded := ValidateCoinbaseScriptSig(txs[0].inputs[0].signatureScript, height);
      if !encoded { return false; }
    }
    for i := 1 to |txs|
      invariant forall j :: 1 <= j < i ==> !IsCoinbase(txs[j])
    {
      if IsCoinbase(txs[i]) { return false; }
    }
    if |txs| % TWO32 > p.maxBlockTxCount { return false; }
    var distinct := CheckDistinctIds(c.txId, txs);
    if !distinct { return false; }
    var root := ComputeMerkleRoot(c.node, IdList(c.txId, txs));
    if root != b.header.merkleRoot { return false; }
    if |EncBlock(b)| % TWO32 > p.maxBlockSize { return false; }
    var coinbaseValue := SumCoinbase(txs[0].outputs);
    return coinbaseValue.Some?;
  }

  lemma {:induction false} RootDeterminesTxs(c: Crypto, xs: seq<Transaction>, ys: seq<Transaction>)
    requires Ideal(c) && xs != [] && ys != [] && DistinctIds(c.txId, xs) && DistinctIds(c.txId, ys)
    requires MerkleRoot(c.node, IdList(c.txId, xs)) == MerkleRoot(c.node, IdList(c.txId, ys))
    ensures xs == ys
  {
    var us, vs := IdList(c.txId, xs), IdList(c.txId, ys);
    MerkleRootIsUnique(c.node, us, vs);
    forall k | 0 <= k < |xs| ensures xs[k] == ys[k] {
      assert c.txId(xs[k]) == us[k] == vs[k] == c.txId(ys[k]);
    }
  }

  /** The header commits to the transactions: two structurally valid blocks with one header are one block. */
  lemma {:induction false} HeaderDeterminesBlock(c: Crypto, p: ChainParams, a: Block, b: Block, i: nat, j: nat)
    requires Ideal(c) && StructureOk(c, p, a, i) && StructureOk(c, p, b, j) && a.header == b.header
    ensures a == b
  {
    RootDeterminesTxs(c, a.transactions, b.transactions);
  }
}
