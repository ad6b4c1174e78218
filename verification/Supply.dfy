/** Conservation of value and the supply bound (internal/utxo TotalValue, internal/params CalcSubsidy). */
module Supply {
  import opened Types
  import opened Arith
  import opened Params
  import opened Utxo
  import opened TxValidation
  import opened BlockRules
  import opened History

  // ----------------------------------------------------------------- totals of a UTXO set

  /** The exact value of a UTXO set. */
  ghost function Total(m: Coins): nat {
    if m == map[] then 0 else
    var k :| k in m;
    m[k].value + Total(m - {k})
  }

  lemma {:induction false} TotalRemove(m: Coins, k: OutPoint)
    requires k in m
    ensures Total(m) == m[k].value + Total(m - {k})
    decreases |m|
  {
    var j :| j in m && Total(m) == m[j].value + Total(m - {j});
    if j != k {
      TotalRemove(m - {j}, k);
      TotalRemove(m - {k}, j);
      assert (m - {j}) - {k} == (m - {k}) - {j};
    }
  }

  lemma {:induction false} TotalOfNothing()
    ensures Total(map[]) == 0
  {
  }

  lemma {:induction false} TotalUnion(a: Coins, b: Coins)
    requires a.Keys !! b.Keys
    ensures Total(a + b) == Total(a) + Total(b)
    decreases |b|
  {
    hide Total;
    if b == map[] {
      assert a + b == a;
      TotalOfNothing();
    } else {
      var k :| k in b;
      assert (a + b) - {k} == a + (b - {k});
      TotalRemove(a + b, k);
      TotalRemove(b, k);
      TotalUnion(a, b - {k});
    }
  }

  /** The sum with its overflow sentinel: exact below 2^64, all ones otherwise. */
  method TotalValue(entries: Coins) returns (r: u64)
    ensures r == if Total(entries) < TWO64 then Total(entries) else TWO64 - 1
  {
    var total: u64 := 0;
    var left := entries;
    while left != map[]
      invariant total + Total(left) == Total(entries)
      decreases |left|
    {
      var k :| k in left;
      TotalRemove(left, k);
      if Add64(total, left[k].value) < total { return TWO64 - 1; }
      total := Add64(total, left[k].value);
      left := left - {k};
    }
    return total;
  }

  // ------------------------------------------------------------- what a block moves around

  lemma {:induction false} SpendingReduces(s: Coins, m: Coins, ins: seq<TxInput>)
    requires DistinctOps(ins) && InputSet(ins) <= m.Keys
    requires forall op :: op in InputSet(ins) ==> op in s && m[op] == s[op]
    ensures Total(m - InputSet(ins)) + SumIn(s, ins) == Total(m)
  {
    if ins == [] {
      assert m - InputSet(ins) == m;
    } else {
      var n := |ins| - 1;
      var op := ins[n].previousOutPoint;
      if op in InputSet(ins[..n]) { var i := InputSetMember(ins[..n], op); }
      SpendingReduces(s, m, ins[..n]);
      TotalRemove(m - InputSet(ins[..n]), op);
      assert (m - InputSet(ins[..n])) - {op} == m - InputSet(ins);
    }
  }

  function InSum(s: Coins, txs: seq<Transaction>): nat {
    if txs == [] then 0 else
    var tx := txs[|txs| - 1];
    InSum(s, txs[..|txs| - 1]) + if IsCoinbase(tx) then 0 else SumIn(s, tx.inputs)
  }

  function OutSum(txs: seq<Transaction>): nat {
    if txs == [] then 0 else OutSum(txs[..|txs| - 1]) + SumOut(txs[|txs| - 1].outputs)
  }

  lemma {:induction false} BlockSpendingReduces(s: Coins, txs: seq<Transaction>)
    requires NoDoubleSpend(txs) && SpentSet(txs) <= s.Keys
    ensures Total(s - SpentSet(txs)) + InSum(s, txs) == Total(s)
  {
    if txs == [] {
      assert s - SpentSet(txs) == s;
    } else {
      var init, tx := txs[..|txs| - 1], txs[|txs| - 1];
      BlockSpendingReduces(s, init);
      if IsCoinbase(tx) {
        assert SpentSet(txs) == SpentSet(init);
      } else {
        var m := s - SpentSet(init);
        SpendingReduces(s, m, tx.inputs);
        assert m - InputSet(tx.inputs) == s - SpentSet(txs);
      }
    }
  }

  lemma {:induction false} OutputsTotal(id: Hash, tx: Transaction, height: nat, n: nat)
    requires n <= |tx.outputs|
    ensures Total(FirstOutputs(id, tx, height, n)) == SumOut(tx.outputs[..n])
  {
    hide Total;
    if n == 0 {
      TotalOfNothing();
    } else {
      OutputsTotal(id, tx, height, n - 1);
      FirstOutputsAre(id, tx, height, n - 1);
      var m, k := FirstOutputs(id, tx, height, n), OutPoint(id, n - 1);
      TotalRemove(m, k);
      assert m - {k} == FirstOutputs(id, tx, height, n - 1);
      assert tx.outputs[..n][..n - 1] == tx.outputs[..n - 1];
    }
  }

  lemma {:induction false} BlockOutputsTotal(ids: TxIds, txs: seq<Transaction>, height: nat)
    requires DistinctIds(ids, txs)
    ensures Total(BlockOutputs(ids, txs, height)) == OutSum(txs)
  {
    if txs != [] {
      var init, tx := txs[..|txs| - 1], txs[|txs| - 1];
      BlockOutputsTotal(ids, init, height);
      OutputsTotal(ids(tx), tx, height, |tx.outputs|);
      assert tx.outputs[..|tx.outputs|] == tx.outputs;
      FirstOutputsAre(ids(tx), tx, height, |tx.outputs|);
      BlockOutputKeys(ids, init, height);
      forall op | op in BlockOutputs(ids, init, height) ensures op !in OutputsOf(ids(tx), tx, height) {
        var i := OutputKeyOf(ids, init, op);
      }
      TotalUnion(BlockOutputs(ids, init, height), OutputsOf(ids(tx), tx, height));
    }
  }

  /** Only the first transaction is a coinbase, so the rest of the outputs is inputs less fees. */
  lemma {:induction false} FeesAreTheRest(s: Coins, txs: seq<Transaction>)
    requires txs != [] && IsCoinbase(txs[0]) && forall i :: 1 <= i < |txs| ==> !IsCoinbase(txs[i])
    ensures OutSum(txs) == SumOut(txs[0].outputs) + InSum(s, txs) - Fees(s, txs)
  {
    var init := txs[..|txs| - 1];
    if init == [] {
      assert OutSum(init) == 0;
    } else {
      FeesAreTheRest(s, init);
    }
  }

  /** Conservation: connecting an accepted block changes the total by what the coinbase takes less the fees. */
  lemma {:induction false} BlockConservesValue(c: Crypto, p: ChainParams, s: Coins, b: Block, height: nat)
    requires StructureOk(c, p, b, height) && BlockInputsOk(c.verify, p, s, height, b)
    requires FreshOutputs(c.txId, s, b.transactions)
    ensures Connect(c.txId, s, b, height).Some?
    ensures Total(Connect(c.txId, s, b, height).value.coins) ==
            Total(s) + SumOut(b.transactions[0].outputs) - Fees(s, b.transactions)
  {
    var txs := b.transactions;
    AcceptedBlockReverses(c.txId, c.verify, p, s, height, b);
    ConnectClosedForm(c.txId, s, b, height);
    AcceptedSpends(c.verify, p, s, height, txs);
    BlockSpendingReduces(s, txs);
    BlockOutputsTotal(c.txId, txs, height);
    FeesAreTheRest(s, txs);
    var outs := BlockOutputs(c.txId, txs, height);
    BlockOutputKeys(c.txId, txs, height);
    forall op | op in outs ensures op !in s { var i := OutputKeyOf(c.txId, txs, op); }
    assert outs - SpentSet(txs) == outs;
    TotalUnion(s - SpentSet(txs), outs);
  }

  // ------------------------------------------------------------------------- the schedule

  /** All subsidies from height 1 up to the given one. */
  function Issued(p: ChainParams, n: nat): nat {
    if n == 0 then 0 else Issued(p, n - 1) + CalcSubsidy(p, n)
  }

  /** Supply bound on every accepted chain. */
  lemma {:induction false} SupplyBound(c: Crypto, p: ChainParams, blocks: seq<Block>)
    requires Ideal(c) && GenesisOk(c, p) && ChainOk(c, p, blocks)
    ensures Total(Replay(c.txId, blocks)) <=
            Total(GenesisCoins(c.txId, p.genesisBlock.transactions)) + Issued(p, |blocks| - 1)
  {
    hide StructureOk, BlockInputsOk, Connect, Disconnect, Total, GenesisCoins, ChainOk, Ideal, GenesisOk, FreshOutputs, CalcSubsidy;
    var n := |blocks| - 1;
    if n > 0 {
      ChainStep(c, p, blocks, n);
      SupplyBound(c, p, blocks[..n]);
      NextBlockReverses(c, p, blocks[..n], blocks[n]);
      BlockIssuesAtMost(c, p, Replay(c.txId, blocks[..n]), blocks[n], n);
    } else {
      StartsAtGenesis(c, p, blocks);
    }
  }

  lemma {:induction false} StartsAtGenesis(c: Crypto, p: ChainParams, blocks: seq<Block>)
    requires ChainOk(c, p, blocks)
    ensures blocks != [] && blocks[0] == p.genesisBlock
  {
  }

  lemma {:induction false} BlockIssuesAtMost(c: Crypto, p: ChainParams, s: Coins, b: Block, height: nat)
    requires StructureOk(c, p, b, height) && BlockInputsOk(c.verify, p, s, height, b)
    requires FreshOutputs(c.txId, s, b.transactions)
    ensures Connect(c.txId, s, b, height).Some?
    ensures Total(Connect(c.txId, s, b, height).value.coins) <= Total(s) + CalcSubsidy(p, height)
  {
    hide StructureOk, Connect, Total, FreshOutputs, CalcSubsidy, TxsOk;
    BlockConservesValue(c, p, s, b, height);
  }

  lemma {:induction false} SubsidyStep(p: ChainParams, n: nat)
    requires p.subsidyHalvingInterval > 0
    ensures var i := p.subsidyHalvingInterval;
            if (n + 1) % i == 0
            then n % i == i - 1 && 2 * CalcSubsidy(p, n + 1) <= CalcSubsidy(p, n)
            else (n + 1) % i == n % i + 1 && CalcSubsidy(p, n + 1) == CalcSubsidy(p, n)
  {
    var i := p.subsidyHalvingInterval;
    var q, r := n / i, n % i;
    if r == i - 1 {
      DivUnique(n + 1, i, q + 1, 0);
      if q + 1 < 64 { HalvedStep(p.initialSubsidy, q + 1); }
    } else {
      DivUnique(n + 1, i, q, r + 1);
    }
  }

  /** The whole schedule: the first era pays the initial subsidy, and one interval later every block pays half. */
  lemma {:induction false} SubsidyHalves(p: ChainParams, height: nat)
    requires p.subsidyHalvingInterval > 0
    ensures height < p.subsidyHalvingInterval ==> CalcSubsidy(p, height) == p.initialSubsidy
    ensures CalcSubsidy(p, height + p.subsidyHalvingInterval) == CalcSubsidy(p, height) / 2
  {
    hide Pow2;
    var i, s := p.subsidyHalvingInterval, p.initialSubsidy;
    var q, r := height / i, height % i;
    if height < i { DivUnique(height, i, 0, height); }
    DivUnique(height + i, i, q + 1, r);
    DivNonNegative(height, i);
    if q < 64 {
      HalvedStep(s, q + 1);
      Pow2Widths();
      DivUnique(s, TWO64, 0, s);
    }
  }

  /** `left` more blocks of this era at `s`, and all later eras, which together are worth at most one era at `s`. */
  function Headroom(i: nat, left: nat, s: nat): nat {
    left * s + i * s
  }

  lemma {:induction false} HeadroomInEra(i: nat, left: nat, s: nat)
    ensures Headroom(i, left + 1, s) == s + Headroom(i, left, s)
  {
    assert (left + 1) * s == left * s + s;
  }

  lemma {:induction false} HeadroomNewEra(i: nat, s: nat, s': nat)
    requires i > 0 && 2 * s' <= s
    ensures s' + Headroom(i, i - 1, s') <= Headroom(i, 0, s)
  {
    MulMono(i, 2 * s', s);
    assert i * (2 * s') == 2 * (i * s');
    assert (i - 1) * s' == i * s' - s';
  }

  /** Whatever the height, what is issued and what may still be issued stay below twice the first era. */
  lemma {:induction false} ScheduleBound(p: ChainParams, n: nat)
    requires p.subsidyHalvingInterval > 0
    ensures var i := p.subsidyHalvingInterval;
            && n % i <= i - 1
            && Issued(p, n) + p.initialSubsidy + Headroom(i, i - 1 - n % i, CalcSubsidy(p, n)) <= 2 * (i * p.initialSubsidy)
  {
    var i := p.subsidyHalvingInterval;
    var init := p.initialSubsidy;
    if n == 0 {
      DivUnique(0, i, 0, 0);
      assert (i - 1) * init == i * init - init;
    } else {
      ScheduleBound(p, n - 1);
      SubsidyStep(p, n - 1);
      if n % i == 0 {
        HeadroomNewEra(i, CalcSubsidy(p, n - 1), CalcSubsidy(p, n));
      } else {
        HeadroomInEra(i, i - 1 - n % i, CalcSubsidy(p, n));
      }
    }
  }

  lemma {:induction false} MainnetIssued(p: ChainParams, n: nat)
    requires p.initialSubsidy == 50_0000_0000 && p.subsidyHalvingInterval == 210_000
    ensures Issued(p, n) <= MAX_MONEY
  {
    ScheduleBound(p, n);
  }

  ghost predicate MainnetEconomics(c: Crypto, p: ChainParams) {
    && p.initialSubsidy == 50_0000_0000 && p.subsidyHalvingInterval == 210_000
    && (forall i, j :: 0 <= i < |p.genesisBlock.transactions| && 0 <= j < |p.genesisBlock.transactions[i].outputs| ==>
          IsLegacyPlaceholder(p.genesisBlock.transactions[i].outputs[j].pkScript))
  }

  lemma {:induction false} PlaceholdersKeepNothing(ids: TxIds, txs: seq<Transaction>)
    requires forall i, j :: 0 <= i < |txs| && 0 <= j < |txs[i].outputs| ==> IsLegacyPlaceholder(txs[i].outputs[j].pkScript)
    ensures GenesisCoins(ids, txs) == map[]
  {
    if txs != [] {
      var init, tx := txs[..|txs| - 1], txs[|txs| - 1];
      assert forall i :: 0 <= i < |init| ==> init[i] == txs[i];
      PlaceholdersKeepNothing(ids, init);
      FirstOutputsAre(ids(tx), tx, 0, |tx.outputs|);
      assert KeptOutputs(OutputsOf(ids(tx), tx, 0)) == map[];
    }
  }

  /** On mainnet no chain of any length holds more than MaxMoneyValue, so the sum never reaches its sentinel. */
  lemma {:induction false} MainnetSupply(c: Crypto, p: ChainParams, blocks: seq<Block>)
    requires Ideal(c) && GenesisOk(c, p) && ChainOk(c, p, blocks) && MainnetEconomics(c, p)
    ensures Total(Replay(c.txId, blocks)) <= MAX_MONEY < TWO64 - 1
  {
    SupplyBound(c, p, blocks);
    PlaceholdersKeepNothing(c.txId, p.genesisBlock.transactions);
    MainnetIssued(p, |blocks| - 1);
  }
}
