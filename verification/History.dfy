/** Replaying a chain of blocks, and why no transaction id ever repeats on one. */
module History {
  import opened Types
  import opened Params
  import opened Utxo
  import opened TxValidation
  import opened BlockRules

  // ---------------------------------------------------------------------------- genesis

  /** Outputs with a placeholder script never enter the set. */
  function KeptOutputs(m: Coins): Coins {
    map op | op in m && !IsLegacyPlaceholder(m[op].pkScript) :: m[op]
  }

  function GenesisCoins(ids: TxIds, txs: seq<Transaction>): Coins {
    if txs == [] then map[] else
    var tx := txs[|txs| - 1];
    GenesisCoins(ids, txs[..|txs| - 1]) + KeptOutputs(OutputsOf(ids(tx), tx, 0))
  }

  /** The genesis conditions: only coinbases, distinct ids, and no script that encodes a later height. */
  ghost predicate GenesisOk(c: Crypto, p: ChainParams) {
    var txs := p.genesisBlock.transactions;
    && DistinctIds(c.txId, txs)
    && (forall i :: 0 <= i < |txs| ==>
          IsCoinbase(txs[i]) && forall h :: h >= 1 ==> DecodeHeight(txs[i].inputs[0].signatureScript) != Some(h))
  }

  // ----------------------------------------------------------------------------- replay

  /** The UTXO set after the given blocks, from empty. */
  function Replay(ids: TxIds, blocks: seq<Block>): Coins
    requires blocks != []
  {
    var n := |blocks| - 1;
    if n == 0 then GenesisCoins(ids, blocks[0].transactions) else
    var before := Replay(ids, blocks[..n]);
    var r := Connect(ids, before, blocks[n], n);
    if r.None? then before else r.value.coins
  }

  /** Every block accepted by both validators on the state its predecessors leave. */
  ghost predicate ChainOk(c: Crypto, p: ChainParams, blocks: seq<Block>) {
    && blocks != []
    && blocks[0] == p.genesisBlock
    && var n := |blocks| - 1;
       n > 0 ==>
         && ChainOk(c, p, blocks[..n])
         && StructureOk(c, p, blocks[n], n)
         && BlockInputsOk(c.verify, p, Replay(c.txId, blocks[..n]), n, blocks[n])
  }

  lemma {:induction false} ChainOkPrefix(c: Crypto, p: ChainParams, blocks: seq<Block>, n: nat)
    requires ChainOk(c, p, blocks) && 0 < n <= |blocks|
    ensures ChainOk(c, p, blocks[..n])
  {
    hide StructureOk, BlockInputsOk, Replay;
    if n == |blocks| {
      assert blocks[..n] == blocks;
    } else {
      assert blocks[..|blocks| - 1][..n] == blocks[..n];
      ChainOkPrefix(c, p, blocks[..|blocks| - 1], n);
    }
  }

  /** One more block on an accepted chain. */
  lemma {:induction false} ReplayExtends(c: Crypto, p: ChainParams, blocks: seq<Block>, b: Block)
    requires ChainOk(c, p, blocks) && StructureOk(c, p, b, |blocks|)
    requires BlockInputsOk(c.verify, p, Replay(c.txId, blocks), |blocks|, b)
    ensures ChainOk(c, p, blocks + [b])
    ensures Connect(c.txId, Replay(c.txId, blocks), b, |blocks|).Some?
    ensures Replay(c.txId, blocks + [b]) == Connect(c.txId, Replay(c.txId, blocks), b, |blocks|).value.coins
  {
    hide StructureOk, BlockInputsOk, Connect;
    assert (blocks + [b])[..|blocks|] == blocks;
    HasTransactions(c, p, b, |blocks|);
    AcceptedBlockReverses(c.txId, c.verify, p, Replay(c.txId, blocks), |blocks|, b);
  }

  // ------------------------------------------------------------------ no id ever repeats

  ghost function Members(txs: seq<Transaction>): set<Transaction> {
    set tx | tx in txs
  }

  ghost function TxsOf(blocks: seq<Block>): set<Transaction> {
    if blocks == [] then {} else TxsOf(blocks[..|blocks| - 1]) + Members(blocks[|blocks| - 1].transactions)
  }

  /** A coinbase of the chain encodes no height the chain has yet to reach. */
  ghost predicate NoHeightFrom(tx: Transaction, n: nat)
    requires IsCoinbase(tx)
  {
    forall h :: h >= n ==> DecodeHeight(tx.inputs[0].signatureScript) != Some(h)
  }

  /** Every coin comes from a transaction of the chain, and everything spent is gone for good. */
  ghost predicate Accounted(c: Crypto, txs: set<Transaction>, coins: Coins, n: nat) {
    && (forall op :: op in coins ==> exists t :: t in txs && c.txId(t) == op.hash)
    && (forall tx :: tx in txs && IsCoinbase(tx) ==> NoHeightFrom(tx, n))
    && (forall tx, op :: tx in txs && !IsCoinbase(tx) && op in InputSet(tx.inputs) ==>
          op !in coins && exists t :: t in txs && c.txId(t) == op.hash)
  }

  lemma {:induction false} GenesisCoinKeys(ids: TxIds, txs: seq<Transaction>)
    ensures GenesisCoins(ids, txs).Keys <= OutputKeys(ids, txs)
  {
    if txs != [] {
      var tx := txs[|txs| - 1];
      GenesisCoinKeys(ids, txs[..|txs| - 1]);
      assert KeptOutputs(OutputsOf(ids(tx), tx, 0)).Keys <= OutputsOf(ids(tx), tx, 0).Keys;
    }
  }

  lemma {:induction false} GenesisAccounted(c: Crypto, p: ChainParams)
    requires GenesisOk(c, p)
    ensures Accounted(c, TxsOf([p.genesisBlock]), Replay(c.txId, [p.genesisBlock]), 1)
  {
    var txs := p.genesisBlock.transactions;
    var all := TxsOf([p.genesisBlock]);
    var none := [p.genesisBlock][..0];
    assert none == [] && TxsOf(none) == {};
    assert all == TxsOf(none) + Members(txs);
    forall op | op in Replay(c.txId, [p.genesisBlock]) ensures exists t :: t in all && c.txId(t) == op.hash {
      GenesisCoinKeys(c.txId, txs);
      var i := OutputKeyOf(c.txId, txs, op);
      assert txs[i] in all && c.txId(txs[i]) == op.hash;
    }
  }

  /** The first transaction of an accepted block encodes its height, any other spends something that is there. */
  lemma {:induction false} AcceptedTxFacts(c: Crypto, p: ChainParams, coins: Coins, n: nat, b: Block, i: nat)
    requires n > 0 && i < |b.transactions| && StructureOk(c, p, b, n) && BlockInputsOk(c.verify, p, coins, n, b)
    ensures var tx := b.transactions[i];
            if IsCoinbase(tx) then DecodeHeight(tx.inputs[0].signatureScript) == Some(n)
            else tx.inputs != [] && tx.inputs[0].previousOutPoint in InputSet(tx.inputs) && tx.inputs[0].previousOutPoint in coins
  {
    hide DecodeHeight;
    var tx := b.transactions[i];
    if i > 0 {
      TxsOkPrefix(c.verify, p, coins, n, b.transactions, i + 1);
      var first := b.transactions[..i + 1];
      assert first[|first| - 1] == tx;
      assert TxOk(c.verify, p, coins, n, tx);
      assert Spendable(p, coins, n, tx.inputs[0].previousOutPoint);
    }
  }

  /** A transaction of an accepted block is none of the chain's earlier ones. */
  lemma {:induction false} AcceptedTxIsNew(c: Crypto, p: ChainParams, txs: set<Transaction>, coins: Coins, n: nat, b: Block, i: nat)
    requires Accounted(c, txs, coins, n) && n > 0
    requires StructureOk(c, p, b, n) && BlockInputsOk(c.verify, p, coins, n, b)
    requires i < |b.transactions|
    ensures b.transactions[i] !in txs
  {
    hide StructureOk, BlockInputsOk, TxOk, DecodeHeight;
    var tx := b.transactions[i];
    AcceptedTxFacts(c, p, coins, n, b, i);
    if IsCoinbase(tx) {
      assert tx in txs ==> NoHeightFrom(tx, n);
    } else {
      var op := tx.inputs[0].previousOutPoint;
      assert tx in txs && op in InputSet(tx.inputs) ==> op !in coins;
    }
  }

  lemma {:induction false} AcceptedIsFresh(c: Crypto, p: ChainParams, txs: set<Transaction>, coins: Coins, n: nat, b: Block)
    requires Ideal(c) && Accounted(c, txs, coins, n) && n > 0
    requires StructureOk(c, p, b, n) && BlockInputsOk(c.verify, p, coins, n, b)
    ensures forall i, t :: 0 <= i < |b.transactions| && t in txs ==> c.txId(t) != c.txId(b.transactions[i])
    ensures FreshOutputs(c.txId, coins, b.transactions)
  {
    forall i, t | 0 <= i < |b.transactions| && t in txs ensures c.txId(t) != c.txId(b.transactions[i]) {
      AcceptedTxIsNew(c, p, txs, coins, n, b, i);
    }
  }

  lemma {:induction false} SpentByWhom(txs: seq<Transaction>, tx: Transaction, op: OutPoint)
    requires tx in txs && !IsCoinbase(tx) && op in InputSet(tx.inputs)
    ensures op in SpentSet(txs)
  {
    var n := |txs| - 1;
    if tx != txs[n] { SpentByWhom(txs[..n], tx, op); }
  }

  lemma {:induction false} StepAccounted(c: Crypto, p: ChainParams, txs: set<Transaction>, coins: Coins, n: nat, b: Block)
    requires Ideal(c) && Accounted(c, txs, coins, n) && n > 0
    requires StructureOk(c, p, b, n) && BlockInputsOk(c.verify, p, coins, n, b)
    ensures Connect(c.txId, coins, b, n).Some?
    ensures Accounted(c, txs + Members(b.transactions), Connect(c.txId, coins, b, n).value.coins, n + 1)
  {
    hide StructureOk, BlockInputsOk, Connect, DecodeHeight, BlockOutputs, SpentSet, OutputKeys, InputSet, Ideal, IsCoinbase;
    HasTransactions(c, p, b, n);
    AcceptedBlockReverses(c.txId, c.verify, p, coins, n, b);
    AcceptedIsFresh(c, p, txs, coins, n, b);
    SpendsAreThere(c, p, coins, n, b);
    ConnectClosedForm(c.txId, coins, b, n);
    BlockOutputKeys(c.txId, b.transactions, n);
    var all := txs + Members(b.transactions);
    var after := Connect(c.txId, coins, b, n).value.coins;
    forall op | op in after ensures exists t :: t in all && c.txId(t) == op.hash { CoinOrigin(c, txs, coins, b, op); }
    forall tx | tx in all && IsCoinbase(tx) ensures NoHeightFrom(tx, n + 1) { CoinbaseHeight(c, p, txs, coins, n, b, tx); }
    forall tx, op | tx in all && !IsCoinbase(tx) && op in InputSet(tx.inputs)
      ensures op !in after && exists t :: t in all && c.txId(t) == op.hash
    {
      SpentIsGone(c, txs, coins, n, b, tx, op);
    }
  }

  lemma {:induction false} HasTransactions(c: Crypto, p: ChainParams, b: Block, n: nat)
    requires StructureOk(c, p, b, n)
    ensures b.transactions != []
  {
  }

  /** What the longer chain spends came from it, is gone, and is not created again. */
  lemma {:induction false} SpentIsGone(c: Crypto, txs: set<Transaction>, coins: Coins, n: nat, b: Block, tx: Transaction, op: OutPoint)
    requires Accounted(c, txs, coins, n) && SpentSet(b.transactions) <= coins.Keys
    requires forall i, t :: 0 <= i < |b.transactions| && t in txs ==> c.txId(t) != c.txId(b.transactions[i])
    requires tx in txs + Members(b.transactions) && !IsCoinbase(tx) && op in InputSet(tx.inputs)
    ensures op !in coins - SpentSet(b.transactions) && op !in OutputKeys(c.txId, b.transactions)
    ensures exists t :: t in txs + Members(b.transactions) && c.txId(t) == op.hash
  {
    if tx !in txs { SpentByWhom(b.transactions, tx, op); }
    var t :| t in txs && c.txId(t) == op.hash;
    assert t in txs + Members(b.transactions);
    if op in OutputKeys(c.txId, b.transactions) { var i := OutputKeyOf(c.txId, b.transactions, op); }
  }

  lemma {:induction false} SpendsAreThere(c: Crypto, p: ChainParams, coins: Coins, n: nat, b: Block)
    requires b.transactions != [] && BlockInputsOk(c.verify, p, coins, n, b)
    ensures SpentSet(b.transactions) <= coins.Keys
  {
    AcceptedSpends(c.verify, p, coins, n, b.transactions);
  }

  /** Every coin before or after the block comes from a transaction of the chain. */
  lemma {:induction false} CoinOrigin(c: Crypto, txs: set<Transaction>, coins: Coins, b: Block, op: OutPoint)
    requires op in coins || op in OutputKeys(c.txId, b.transactions)
    requires forall o :: o in coins ==> exists t :: t in txs && c.txId(t) == o.hash
    ensures exists t :: t in txs + Members(b.transactions) && c.txId(t) == op.hash
  {
    var all := txs + Members(b.transactions);
    if op in coins {
      var t :| t in txs && c.txId(t) == op.hash;
      assert t in all;
    } else {
      var i := OutputKeyOf(c.txId, b.transactions, op);
      assert b.transactions[i] in all;
    }
  }

  /** No coinbase of the longer chain encodes a height still to come. */
  lemma {:induction false} CoinbaseHeight(c: Crypto, p: ChainParams, txs: set<Transaction>, coins: Coins, n: nat, b: Block, tx: Transaction)
    requires Accounted(c, txs, coins, n) && n > 0 && tx in txs + Members(b.transactions) && IsCoinbase(tx)
    requires StructureOk(c, p, b, n) && BlockInputsOk(c.verify, p, coins, n, b)
    ensures NoHeightFrom(tx, n + 1)
  {
    hide StructureOk, BlockInputsOk, DecodeHeight;
    if tx in txs {
      assert NoHeightFrom(tx, n);
    } else {
      var i :| 0 <= i < |b.transactions| && b.transactions[i] == tx;
      AcceptedTxFacts(c, p, coins, n, b, i);
    }
  }

  lemma {:induction false} ChainAccounted(c: Crypto, p: ChainParams, blocks: seq<Block>)
    requires Ideal(c) && GenesisOk(c, p) && ChainOk(c, p, blocks)
    ensures Accounted(c, TxsOf(blocks), Replay(c.txId, blocks), |blocks|)
  {
    var n := |blocks| - 1;
    if n == 0 {
      assert blocks == [p.genesisBlock];
      GenesisAccounted(c, p);
    } else {
      ChainAccounted(c, p, blocks[..n]);
      StepAccounted(c, p, TxsOf(blocks[..n]), Replay(c.txId, blocks[..n]), n, blocks[n]);
    }
  }

  /** The next accepted block never recreates an outpoint, so its undo data reverses it exactly. */
  lemma {:induction false} NextBlockReverses(c: Crypto, p: ChainParams, blocks: seq<Block>, b: Block)
    requires Ideal(c) && GenesisOk(c, p) && ChainOk(c, p, blocks)
    requires StructureOk(c, p, b, |blocks|)
    requires BlockInputsOk(c.verify, p, Replay(c.txId, blocks), |blocks|, b)
    ensures FreshOutputs(c.txId, Replay(c.txId, blocks), b.transactions)
    ensures var s := Replay(c.txId, blocks);
            var r := Connect(c.txId, s, b, |blocks|);
            r.Some? && Disconnect(c.txId, r.value.coins, b, r.value.undo) == s
  {
    ChainAccounted(c, p, blocks);
    AcceptedIsFresh(c, p, TxsOf(blocks), Replay(c.txId, blocks), |blocks|, b);
    AcceptedBlockReverses(c.txId, c.verify, p, Replay(c.txId, blocks), |blocks|, b);
  }

  lemma {:induction false} TxsOfMember(blocks: seq<Block>, i: nat, k: nat)
    requires i < |blocks| && k < |blocks[i].transactions|
    ensures blocks[i].transactions[k] in TxsOf(blocks)
  {
    if i < |blocks| - 1 { TxsOfMember(blocks[..|blocks| - 1], i, k); }
  }

  lemma {:induction false} ChainStep(c: Crypto, p: ChainParams, blocks: seq<Block>, j: nat)
    requires ChainOk(c, p, blocks) && 0 < j < |blocks|
    ensures ChainOk(c, p, blocks[..j]) && StructureOk(c, p, blocks[j], j)
    ensures BlockInputsOk(c.verify, p, Replay(c.txId, blocks[..j]), j, blocks[j])
  {
    hide StructureOk, BlockInputsOk, Replay;
    ChainOkPrefix(c, p, blocks, j + 1);
    assert blocks[..j + 1][..j] == blocks[..j];
  }

  /** No two transactions of an accepted chain share an id, in one block or across blocks. */
  lemma {:induction false} NoTxIdRepeats(c: Crypto, p: ChainParams, blocks: seq<Block>, i: nat, k: nat, j: nat, l: nat)
    requires Ideal(c) && GenesisOk(c, p) && ChainOk(c, p, blocks)
    requires i <= j < |blocks| && k < |blocks[i].transactions| && l < |blocks[j].transactions|
    requires i != j || k != l
    ensures c.txId(blocks[i].transactions[k]) != c.txId(blocks[j].transactions[l])
  {
    if j > 0 {
      ChainStep(c, p, blocks, j);
      if i < j {
        ChainAccounted(c, p, blocks[..j]);
        TxsOfMember(blocks[..j], i, k);
        AcceptedIsFresh(c, p, TxsOf(blocks[..j]), Replay(c.txId, blocks[..j]), j, blocks[j]);
      }
    }
  }

  // -------------------------------------------------------------- the set is the unspent outputs

  /** Everything the transactions of the chain spend. */
  function SpentOn(blocks: seq<Block>): set<OutPoint> {
    if blocks == [] then {} else SpentOn(blocks[..|blocks| - 1]) + SpentSet(blocks[|blocks| - 1].transactions)
  }

  /** An output of the chain: block, transaction and position. */
  ghost predicate IsOutput(blocks: seq<Block>, i: nat, t: nat, o: nat) {
    i < |blocks| && t < |blocks[i].transactions| && o < |blocks[i].transactions[t].outputs|
  }

  /** Genesis outputs with a placeholder script are no coins. */
  predicate Kept(out: TxOutput, i: nat) {
    i == 0 ==> out.pkScript != [] && out.pkScript != [0]
  }

  lemma {:induction false} GenesisCoin(ids: TxIds, txs: seq<Transaction>, t: nat, o: nat)
    requires DistinctIds(ids, txs) && t < |txs| && o < |txs[t].outputs|
    ensures var op, out := OutPoint(ids(txs[t]), o), txs[t].outputs[o]; var m := GenesisCoins(ids, txs);
            (op in m <==> Kept(out, 0)) && (op in m ==> m[op] == CoinOf(out, 0, IsCoinbase(txs[t])))
  {
    hide IsCoinbase, OutputsOf;
    var n := |txs| - 1;
    KeptOutput(ids(txs[n]), txs[n], OutPoint(ids(txs[t]), o));
    if t < n {
      GenesisCoin(ids, txs[..n], t, o);
      assert ids(txs[t]) != ids(txs[n]);
    } else {
      GenesisKeyIsNew(ids, txs, o);
    }
  }

  lemma {:induction false} KeptOutput(id: Hash, tx: Transaction, op: OutPoint)
    ensures var m := KeptOutputs(OutputsOf(id, tx, 0));
            && (op in m ==> op.hash == id)
            && (op.hash == id && op.index < |tx.outputs| ==>
                  (op in m <==> Kept(tx.outputs[op.index], 0))
                  && (op in m ==> m[op] == CoinOf(tx.outputs[op.index], 0, IsCoinbase(tx))))
  {
    hide IsCoinbase;
    FirstOutputsAre(id, tx, 0, |tx.outputs|);
  }

  lemma {:induction false} GenesisKeyIsNew(ids: TxIds, txs: seq<Transaction>, o: nat)
    requires DistinctIds(ids, txs) && txs != []
    ensures OutPoint(ids(txs[|txs| - 1]), o) !in GenesisCoins(ids, txs[..|txs| - 1])
  {
    var n, op := |txs| - 1, OutPoint(ids(txs[|txs| - 1]), o);
    GenesisCoinKeys(ids, txs[..n]);
    forall i | 0 <= i < n ensures ids(txs[..n][i]) != op.hash {}
    if op in OutputKeys(ids, txs[..n]) { var i := OutputKeyOf(ids, txs[..n], op); }
  }

  lemma {:induction false} NoSpends(txs: seq<Transaction>)
    ensures (forall i :: 0 <= i < |txs| ==> IsCoinbase(txs[i])) ==> SpentSet(txs) == {}
  {
    if txs != [] { NoSpends(txs[..|txs| - 1]); }
  }

  /** What is spent on an accepted chain was an output of it. */
  lemma {:induction false} SpentHasId(c: Crypto, p: ChainParams, blocks: seq<Block>, op: OutPoint)
    requires Ideal(c) && GenesisOk(c, p) && ChainOk(c, p, blocks) && op in SpentOn(blocks)
    ensures exists t :: t in TxsOf(blocks) && c.txId(t) == op.hash
  {
    hide StructureOk, BlockInputsOk, Replay, Accounted;
    var n := |blocks| - 1;
    assert n == 0 ==> blocks[..n] == [];
    NoSpends(blocks[0].transactions);
    if n > 0 && op in SpentOn(blocks[..n]) {
      SpentHasId(c, p, blocks[..n], op);
    } else if n > 0 {
      ChainStep(c, p, blocks, n);
      SpentWasCoin(c, p, blocks[..n], blocks[n], op);
    }
  }

  lemma {:induction false} SpentWasCoin(c: Crypto, p: ChainParams, blocks: seq<Block>, b: Block, op: OutPoint)
    requires Ideal(c) && GenesisOk(c, p) && ChainOk(c, p, blocks) && b.transactions != []
    requires BlockInputsOk(c.verify, p, Replay(c.txId, blocks), |blocks|, b) && op in SpentSet(b.transactions)
    ensures op in Replay(c.txId, blocks) && exists t :: t in TxsOf(blocks) && c.txId(t) == op.hash
  {
    hide BlockInputsOk, Replay, TxsOf;
    SpendsAreThere(c, p, Replay(c.txId, blocks), |blocks|, b);
    ChainAccounted(c, p, blocks);
  }

  /**
   * On an accepted chain the UTXO set is exactly the outputs that no transaction of the chain spends, placeholders of
   * genesis aside, each with its value, its script, the height of its block and whether a coinbase made it.
   */
  lemma {:induction false} OutputIsCoin(c: Crypto, p: ChainParams, blocks: seq<Block>, i: nat, t: nat, o: nat)
    requires Ideal(c) && GenesisOk(c, p) && ChainOk(c, p, blocks) && IsOutput(blocks, i, t, o)
    ensures var tx := blocks[i].transactions[t];
            var op, out, coins := OutPoint(c.txId(tx), o), tx.outputs[o], Replay(c.txId, blocks);
            && (op in coins <==> op !in SpentOn(blocks) && Kept(out, i))
            && (op in coins ==> coins[op] == CoinOf(out, i, IsCoinbase(tx)))
  {
    hide StructureOk, BlockInputsOk, Accounted, Connect, IsCoinbase, GenesisCoins, TxsOf, SpentSet;
    var n := |blocks| - 1;
    if n == 0 {
      assert blocks[..0] == [];
      GenesisCoin(c.txId, blocks[0].transactions, t, o);
      NoSpends(blocks[0].transactions);
    } else {
      var init, b := blocks[..n], blocks[n];
      var op := OutPoint(c.txId(blocks[i].transactions[t]), o);
      ChainStep(c, p, blocks, n);
      ReplayExtends(c, p, init, b);
      HasTransactions(c, p, b, n);
      if i < n {
        OutputIsCoin(c, p, init, i, t, o);
        OlderOutput(c, p, init, b, i, t, o);
      } else {
        NewerOutput(c, p, init, b, t, o);
      }
    }
  }

  /** An output of an earlier block stays a coin exactly if this block does not spend it. */
  lemma {:induction false} OlderOutput(c: Crypto, p: ChainParams, blocks: seq<Block>, b: Block, i: nat, t: nat, o: nat)
    requires Ideal(c) && GenesisOk(c, p) && ChainOk(c, p, blocks) && IsOutput(blocks, i, t, o) && StructureOk(c, p, b, |blocks|)
    requires BlockInputsOk(c.verify, p, Replay(c.txId, blocks), |blocks|, b) && Connect(c.txId, Replay(c.txId, blocks), b, |blocks|).Some?
    ensures var op, s := OutPoint(c.txId(blocks[i].transactions[t]), o), Replay(c.txId, blocks);
            var after := Connect(c.txId, s, b, |blocks|).value.coins;
            && (op in after <==> op in s && op !in SpentSet(b.transactions)) && (op in after ==> after[op] == s[op])
  {
    hide StructureOk, BlockInputsOk, Accounted, Connect, Replay, TxsOf, SpentSet;
    var op, s := OutPoint(c.txId(blocks[i].transactions[t]), o), Replay(c.txId, blocks);
    ChainAccounted(c, p, blocks);
    TxsOfMember(blocks, i, t);
    AcceptedIsFresh(c, p, TxsOf(blocks), s, |blocks|, b);
    ConnectClosedForm(c.txId, s, b, |blocks|);
    BlockOutputKeys(c.txId, b.transactions, |blocks|);
    if op in OutputKeys(c.txId, b.transactions) { var j := OutputKeyOf(c.txId, b.transactions, op); }
  }

  /** An output of this block is a coin, and nothing on the chain before has spent it. */
  lemma {:induction false} NewerOutput(c: Crypto, p: ChainParams, blocks: seq<Block>, b: Block, t: nat, o: nat)
    requires Ideal(c) && GenesisOk(c, p) && ChainOk(c, p, blocks) && StructureOk(c, p, b, |blocks|)
    requires BlockInputsOk(c.verify, p, Replay(c.txId, blocks), |blocks|, b) && Connect(c.txId, Replay(c.txId, blocks), b, |blocks|).Some?
    requires t < |b.transactions| && o < |b.transactions[t].outputs|
    ensures var op, s := OutPoint(c.txId(b.transactions[t]), o), Replay(c.txId, blocks);
            var after := Connect(c.txId, s, b, |blocks|).value.coins;
            && op !in SpentOn(blocks) && (op in after <==> op !in SpentSet(b.transactions))
            && (op in after ==> after[op] == CoinOf(b.transactions[t].outputs[o], |blocks|, IsCoinbase(b.transactions[t])))
  {
    hide StructureOk, BlockInputsOk, Accounted, Connect, Replay, TxsOf, SpentSet, IsCoinbase, SpentOn;
    var op, s := OutPoint(c.txId(b.transactions[t]), o), Replay(c.txId, blocks);
    DistinctInBlock(c, p, b, |blocks|);
    CreatedCoin(c.txId, s, b, |blocks|, t, o);
    ChainAccounted(c, p, blocks);
    AcceptedIsFresh(c, p, TxsOf(blocks), s, |blocks|, b);
    if op in SpentOn(blocks) { SpentHasId(c, p, blocks, op); }
  }

  lemma {:induction false} DistinctInBlock(c: Crypto, p: ChainParams, b: Block, n: nat)
    requires StructureOk(c, p, b, n)
    ensures DistinctIds(c.txId, b.transactions)
  {
  }

  /** There is no other coin. */
  lemma {:induction false} CoinIsOutput(c: Crypto, p: ChainParams, blocks: seq<Block>, op: OutPoint) returns (i: nat, t: nat)
    requires Ideal(c) && GenesisOk(c, p) && ChainOk(c, p, blocks) && op in Replay(c.txId, blocks)
    ensures IsOutput(blocks, i, t, op.index) && op.hash == c.txId(blocks[i].transactions[t])
    ensures op !in SpentOn(blocks)
    ensures Replay(c.txId, blocks)[op] == CoinOf(blocks[i].transactions[t].outputs[op.index], i, IsCoinbase(blocks[i].transactions[t]))
  {
    hide StructureOk, BlockInputsOk, Accounted, Connect, IsCoinbase, GenesisCoins, TxsOf, SpentSet, SpentOn;
    var n := |blocks| - 1;
    if n == 0 {
      GenesisCoinKeys(c.txId, blocks[0].transactions);
      t := OutputKeyOf(c.txId, blocks[0].transactions, op);
      i := 0;
    } else {
      var init, b := blocks[..n], blocks[n];
      ChainStep(c, p, blocks, n);
      ReplayExtends(c, p, init, b);
      ConnectClosedForm(c.txId, Replay(c.txId, init), b, n);
      BlockOutputKeys(c.txId, b.transactions, n);
      if op in OutputKeys(c.txId, b.transactions) {
        t := OutputKeyOf(c.txId, b.transactions, op);
        i := n;
      } else {
        i, t := CoinIsOutput(c, p, init, op);
      }
    }
    OutputIsCoin(c, p, blocks, i, t, op.index);
    assert op == OutPoint(c.txId(blocks[i].transactions[t]), op.index);
  }

  /** What the next accepted block spends is an unspent output of the chain, and a minted one is mature. */
  lemma {:induction false} SpendIsOfOutput(c: Crypto, p: ChainParams, blocks: seq<Block>, b: Block, t: nat, k: nat) returns (i: nat, u: nat)
    requires Ideal(c) && GenesisOk(c, p) && ChainOk(c, p, blocks) && StructureOk(c, p, b, |blocks|)
    requires BlockInputsOk(c.verify, p, Replay(c.txId, blocks), |blocks|, b)
    requires t < |b.transactions| && !IsCoinbase(b.transactions[t]) && k < |b.transactions[t].inputs|
    ensures var op := b.transactions[t].inputs[k].previousOutPoint;
            && IsOutput(blocks, i, u, op.index) && op.hash == c.txId(blocks[i].transactions[u]) && op !in SpentOn(blocks)
            && (IsCoinbase(blocks[i].transactions[u]) ==> |blocks| - i >= p.coinbaseMaturity)
            && op in Replay(c.txId, blocks)
            && Replay(c.txId, blocks)[op].pkScript == blocks[i].transactions[u].outputs[op.index].pkScript
  {
    hide StructureOk, Accounted, Connect, IsCoinbase, TxsOf, SpentSet, SpentOn, Replay, TxOk;
    HasTransactions(c, p, b, |blocks|);
    var op := b.transactions[t].inputs[k].previousOutPoint;
    SpendableInput(c.verify, p, Replay(c.txId, blocks), |blocks|, b, t, k);
    i, u := CoinIsOutput(c, p, blocks, op);
  }
}
