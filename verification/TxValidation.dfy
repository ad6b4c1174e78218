/** Transaction and block value rules (internal/consensus/txvalidation.go). */
module TxValidation {
  import opened Types
  import opened Params
  import opened Utxo

  /** Spend authorization: signature script, locking script, transaction, input index. */
  type ScriptCheck = (Bytes, Bytes, Transaction, nat) -> bool

  // ------------------------------------------------------------- what the loops should mean

  function SumIn(s: Coins, ins: seq<TxInput>): nat {
    if ins == [] then 0 else
    var op := ins[|ins| - 1].previousOutPoint;
    SumIn(s, ins[..|ins| - 1]) + if op in s then s[op].value else 0
  }

  function SumOut(outs: seq<TxOutput>): nat {
    if outs == [] then 0 else SumOut(outs[..|outs| - 1]) + outs[|outs| - 1].value
  }

  /** The input exists before the block and, if it is a coinbase output, is mature. */
  predicate Spendable(p: ChainParams, s: Coins, height: nat, op: OutPoint) {
    && op in s
    && (s[op].isCoinbase ==> s[op].height <= height && height - s[op].height >= p.coinbaseMaturity)
  }

  ghost predicate InputsOk(p: ChainParams, s: Coins, height: nat, ins: seq<TxInput>) {
    && DistinctOps(ins)
    && (forall i :: 0 <= i < |ins| ==> Spendable(p, s, height, ins[i].previousOutPoint))
    && SumIn(s, ins) < TWO64
  }

  ghost predicate OutputsOk(outs: seq<TxOutput>) {
    && (forall i :: 0 <= i < |outs| ==> 0 < outs[i].value <= MAX_MONEY)
    && SumOut(outs) < TWO64
  }

  ghost predicate ScriptsOk(verify: ScriptCheck, s: Coins, tx: Transaction) {
    forall i :: 0 <= i < |tx.inputs| && tx.inputs[i].previousOutPoint in s ==>
      verify(tx.inputs[i].signatureScript, s[tx.inputs[i].previousOutPoint].pkScript, tx, i)
  }

  /** A transaction that may spend from `s` in a block at `height`. */
  ghost predicate TxOk(verify: ScriptCheck, p: ChainParams, s: Coins, height: nat, tx: Transaction) {
    && tx.inputs != [] && tx.outputs != []
    && InputsOk(p, s, height, tx.inputs)
    && OutputsOk(tx.outputs)
    && SumOut(tx.outputs) <= SumIn(s, tx.inputs)
    && ScriptsOk(verify, s, tx)
  }

  function FeeOf(s: Coins, tx: Transaction): int {
    SumIn(s, tx.inputs) - SumOut(tx.outputs)
  }

  function Fees(s: Coins, txs: seq<Transaction>): int {
    if txs == [] then 0 else
    var tx := txs[|txs| - 1];
    Fees(s, txs[..|txs| - 1]) + if IsCoinbase(tx) then 0 else FeeOf(s, tx)
  }

  /** One transaction, after the ones before it. */
  ghost predicate StepOk(verify: ScriptCheck, p: ChainParams, s: Coins, height: nat, spent: set<OutPoint>, tx: Transaction) {
    if IsCoinbase(tx) then forall i :: 0 <= i < |tx.outputs| ==> tx.outputs[i].value > 0
    else TxOk(verify, p, s, height, tx) && InputSet(tx.inputs) !! spent
  }

  ghost predicate TxsOk(verify: ScriptCheck, p: ChainParams, s: Coins, height: nat, txs: seq<Transaction>) {
    txs != [] ==>
      && TxsOk(verify, p, s, height, txs[..|txs| - 1])
      && StepOk(verify, p, s, height, SpentSet(txs[..|txs| - 1]), txs[|txs| - 1])
      && Fees(s, txs) < TWO64
  }

  /** The whole rule, on exact sums. */
  ghost predicate BlockInputsOk(verify: ScriptCheck, p: ChainParams, s: Coins, height: nat, b: Block)
    requires b.transactions != []
  {
    && TxsOk(verify, p, s, height, b.transactions)
    && CalcSubsidy(p, height) + Fees(s, b.transactions) < TWO64
    && SumOut(b.transactions[0].outputs) <= CalcSubsidy(p, height) + Fees(s, b.transactions)
  }

  // ------------------------------------------------------------------------ the loops

  lemma {:induction false} SumInPrefix(s: Coins, ins: seq<TxInput>, i: nat)
    requires i <= |ins|
    ensures SumIn(s, ins[..i]) <= SumIn(s, ins)
  {
    if i == |ins| {
      assert ins[..i] == ins;
    } else {
      assert ins[..|ins| - 1][..i] == ins[..i];
      SumInPrefix(s, ins[..|ins| - 1], i);
    }
  }

  lemma {:induction false} SumOutPrefix(outs: seq<TxOutput>, i: nat)
    requires i <= |outs|
    ensures SumOut(outs[..i]) <= SumOut(outs)
  {
    if i == |outs| {
      assert outs[..i] == outs;
    } else {
      assert outs[..|outs| - 1][..i] == outs[..i];
      SumOutPrefix(outs[..|outs| - 1], i);
    }
  }

  /** The input loop: the guarded uint64 total is the exact total, or the loop stops. */
  lemma {:induction false} NoInputs(p: ChainParams, s: Coins, height: nat)
    ensures InputsOk(p, s, height, []) && InputSet([]) == {} && SumIn(s, []) == 0
  {
  }

  lemma {:induction false} SpendableIsThere(p: ChainParams, s: Coins, height: nat, op: OutPoint)
    requires Spendable(p, s, height, op)
    ensures op in s
  {
  }

  /** One more input, and what it takes for the whole list. */
  lemma {:induction false} OneMoreInput(p: ChainParams, s: Coins, height: nat, ins: seq<TxInput>, i: nat)
    requires i < |ins|
    ensures var op, upTo, next := ins[i].previousOutPoint, ins[..i], ins[..i + 1];
            && InputSet(next) == InputSet(upTo) + {op} && op in InputSet(ins)
            && (InputsOk(p, s, height, next) <==>
                InputsOk(p, s, height, upTo) && op !in InputSet(upTo) && Spendable(p, s, height, op) && SumIn(s, upTo) + s[op].value < TWO64)
            && (Spendable(p, s, height, op) ==> SumIn(s, next) == SumIn(s, upTo) + s[op].value)
            && (InputsOk(p, s, height, ins) ==> InputsOk(p, s, height, next))
  {
    var op, upTo, next := ins[i].previousOutPoint, ins[..i], ins[..i + 1];
    assert next[..i] == upTo;
    SumInPrefix(s, ins, i + 1);
    if op in InputSet(upTo) { var j := InputSetMember(upTo, op); }
  }

  method CheckInputs(p: ChainParams, s: Coins, height: nat, ins: seq<TxInput>, spentInBlock: set<OutPoint>)
    returns (r: Option<u64>, spent: set<OutPoint>)
    ensures r.Some? <==> InputsOk(p, s, height, ins) && InputSet(ins) !! spentInBlock
    ensures r.Some? ==> r.value == SumIn(s, ins) && spent == spentInBlock + InputSet(ins)
  {
    hide InputsOk, InputSet, SumIn, Spendable;
    NoInputs(p, s, height);
    var seenInputs: set<OutPoint> := {};
    var totalIn: u64 := 0;
    spent := spentInBlock;
    for i := 0 to |ins|
      invariant InputsOk(p, s, height, ins[..i]) && InputSet(ins[..i]) !! spentInBlock
      invariant totalIn == SumIn(s, ins[..i])
      invariant seenInputs == InputSet(ins[..i]) && spent == spentInBlock + seenInputs
    {
      var op := ins[i].previousOutPoint;
      OneMoreInput(p, s, height, ins, i);
      if op in seenInputs || op in spent { return None, spent; }
      if !Spendable(p, s, height, op) { return None, spent; }
      SpendableIsThere(p, s, height, op);
      if Add64(totalIn, s[op].value) < totalIn { return None, spent; }
      totalIn := Add64(totalIn, s[op].value);
      seenInputs, spent := seenInputs + {op}, spent + {op};
    }
    assert ins[..|ins|] == ins;
    return Some(totalIn), spent;
  }

  /** The output loop of a paying transaction. */
  method CheckOutputs(outs: seq<TxOutput>) returns (r: Option<u64>)
    ensures r.Some? <==> OutputsOk(outs)
    ensures r.Some? ==> r.value == SumOut(outs)
  {
    var totalOut: u64 := 0;
    for i := 0 to |outs|
      invariant OutputsOk(outs[..i]) && totalOut == SumOut(outs[..i])
    {
      assert outs[..i + 1][..i] == outs[..i];
      SumOutPrefix(outs, i + 1);
      if outs[i].value == 0 || outs[i].value > MAX_MONEY { return None; }
      if Add64(totalOut, outs[i].value) < totalOut { return None; }
      totalOut := Add64(totalOut, outs[i].value);
    }
    assert outs[..|outs|] == outs;
    return Some(totalOut);
  }

  method CheckScripts(verify: ScriptCheck, s: Coins, tx: Transaction) returns (ok: bool)
    ensures ok <==> ScriptsOk(verify, s, tx)
  {
    for i := 0 to |tx.inputs|
      invariant forall j :: 0 <= j < i && tx.inputs[j].previousOutPoint in s ==>
                  verify(tx.inputs[j].signatureScript, s[tx.inputs[j].previousOutPoint].pkScript, tx, j)
    {
      var op := tx.inputs[i].previousOutPoint;
      if op in s && !verify(tx.inputs[i].signatureScript, s[op].pkScript, tx, i) { return false; }
    }
    return true;
  }

  /** The coinbase total with its wrap guard. */
  method SumCoinbase(outs: seq<TxOutput>) returns (r: Option<u64>)
    ensures r.Some? <==> SumOut(outs) < TWO64
    ensures r.Some? ==> r.value == SumOut(outs)
  {
    var total: u64 := 0;
    for i := 0 to |outs|
      invariant total == SumOut(outs[..i])
    {
      assert outs[..i + 1][..i] == outs[..i];
      SumOutPrefix(outs, i + 1);
      if Add64(total, outs[i].value) < total { return None; }
      total := Add64(total, outs[i].value);
    }
    assert outs[..|outs|] == outs;
    return Some(total);
  }

  /** Mempool admission: accepts exactly the transactions that may spend at the next height. */
  method ValidateSingleTransaction(verify: ScriptCheck, p: ChainParams, s: Coins, tipHeight: nat, tx: Transaction)
    returns (r: Option<u64>)
    ensures r.Some? <==> !IsCoinbase(tx) && TxOk(verify, p, s, tipHeight + 1, tx)
    ensures r.Some? ==> r.value == FeeOf(s, tx)
  {
    if IsCoinbase(tx) || tx.inputs == [] || tx.outputs == [] { return None; }
    var totalIn, _ := CheckInputs(p, s, tipHeight + 1, tx.inputs, {});
    if totalIn.None? { return None; }
    var totalOut := CheckOutputs(tx.outputs);
    if totalOut.None? || totalIn.value < totalOut.value { return None; }
    var ok := CheckScripts(verify, s, tx);
    if !ok { return None; }
    return Some(totalIn.value - totalOut.value);
  }

  lemma {:induction false} TxsOkPrefix(verify: ScriptCheck, p: ChainParams, s: Coins, height: nat,
                                       txs: seq<Transaction>, t: nat)
    requires t <= |txs| && TxsOk(verify, p, s, height, txs)
    ensures TxsOk(verify, p, s, height, txs[..t])
  {
    if t == |txs| {
      assert txs[..t] == txs;
    } else {
      assert txs[..|txs| - 1][..t] == txs[..t];
      TxsOkPrefix(verify, p, s, height, txs[..|txs| - 1], t);
    }
  }

  /** The body of the block loop. */
  method ValidateStep(verify: ScriptCheck, p: ChainParams, s: Coins, height: nat, tx: Transaction,
                      spentInBlock: set<OutPoint>) returns (r: Option<u64>, spent: set<OutPoint>)
    ensures r.Some? <==> StepOk(verify, p, s, height, spentInBlock, tx)
    ensures r.Some? ==> if IsCoinbase(tx) then r.value == 0 && spent == spentInBlock
                        else r.value == FeeOf(s, tx) && spent == spentInBlock + InputSet(tx.inputs)
  {
    spent := spentInBlock;
    if IsCoinbase(tx) {
      if exists o :: 0 <= o < |tx.outputs| && tx.outputs[o].value == 0 { return None, spent; }
      return Some(0), spent;
    }
    if tx.inputs == [] || tx.outputs == [] { return None, spent; }
    var totalIn, spentNow := CheckInputs(p, s, height, tx.inputs, spentInBlock);
    if totalIn.None? { return None, spent; }
    var totalOut := CheckOutputs(tx.outputs);
    if totalOut.None? || totalIn.value < totalOut.value { return None, spent; }
    var ok := CheckScripts(verify, s, tx);
    if !ok { return None, spent; }
    return Some(totalIn.value - totalOut.value), spentNow;
  }

  /** One round of the block loop. */
  lemma {:induction false} TxsOkRound(verify: ScriptCheck, p: ChainParams, s: Coins, height: nat,
                                      txs: seq<Transaction>, t: nat)
    requires t < |txs| && TxsOk(verify, p, s, height, txs[..t])
    ensures Fees(s, txs[..t + 1]) == Fees(s, txs[..t]) + if IsCoinbase(txs[t]) then 0 else FeeOf(s, txs[t])
    ensures SpentSet(txs[..t + 1]) == SpentSet(txs[..t]) + if IsCoinbase(txs[t]) then {} else InputSet(txs[t].inputs)
    ensures StepOk(verify, p, s, height, SpentSet(txs[..t]), txs[t]) && Fees(s, txs[..t + 1]) < TWO64 <==>
            TxsOk(verify, p, s, height, txs[..t + 1])
    ensures TxsOk(verify, p, s, height, txs) ==> TxsOk(verify, p, s, height, txs[..t + 1])
  {
    assert txs[..t + 1][..t] == txs[..t];
    if TxsOk(verify, p, s, height, txs) { TxsOkPrefix(verify, p, s, height, txs, t + 1); }
  }

  /** The block loop. */
  method ValidateTxs(verify: ScriptCheck, p: ChainParams, s: Coins, height: nat, txs: seq<Transaction>)
    returns (r: Option<u64>)
    ensures r.Some? <==> TxsOk(verify, p, s, height, txs)
    ensures r.Some? ==> r.value == Fees(s, txs)
  {
    var totalFees: u64 := 0;
    var spentInBlock: set<OutPoint> := {};
    for t := 0 to |txs|
      invariant TxsOk(verify, p, s, height, txs[..t])
      invariant totalFees == Fees(s, txs[..t]) && spentInBlock == SpentSet(txs[..t])
    {
      TxsOkRound(verify, p, s, height, txs, t);
      var fee, spent := ValidateStep(verify, p, s, height, txs[t], spentInBlock);
      if fee.None? || Add64(totalFees, fee.value) < totalFees { return None; }
      totalFees, spentInBlock := Add64(totalFees, fee.value), spent;
    }
    assert txs[..|txs|] == txs;
    return Some(totalFees);
  }

  /** Block validation: the loops decide BlockInputsOk and return the exact fees. */
  method ValidateTransactionInputs(verify: ScriptCheck, p: ChainParams, s: Coins, height: nat, b: Block)
    returns (r: Option<u64>)
    requires b.transactions != []
    ensures r.Some? <==> BlockInputsOk(verify, p, s, height, b)
    ensures r.Some? ==> r.value == Fees(s, b.transactions)
  {
    var totalFees := ValidateTxs(verify, p, s, height, b.transactions);
    if totalFees.None? { return None; }
    var subsidy := CalcSubsidy(p, height);
    var maxCoinbase := Add64(subsidy, totalFees.value);
    if maxCoinbase < subsidy { return None; }
    var coinbaseValue := SumCoinbase(b.transactions[0].outputs);
    if coinbaseValue.None? || coinbaseValue.value > maxCoinbase { return None; }
    return totalFees;
  }

  // -------------------------------------------------------- accepted blocks and the UTXO set

  lemma {:induction false} AcceptedSpends(verify: ScriptCheck, p: ChainParams, s: Coins, height: nat, txs: seq<Transaction>)
    requires TxsOk(verify, p, s, height, txs)
    ensures NoDoubleSpend(txs) && SpentSet(txs) <= s.Keys && Fees(s, txs) >= 0
  {
    if txs != [] {
      var tx := txs[|txs| - 1];
      AcceptedSpends(verify, p, s, height, txs[..|txs| - 1]);
      if !IsCoinbase(tx) {
        forall op | op in InputSet(tx.inputs) ensures op in s { var i := InputSetMember(tx.inputs, op); }
      }
    }
  }

  /** An accepted block connects, and with fresh output keys disconnecting it restores the set exactly. */
  lemma {:induction false} AcceptedBlockReverses(ids: TxIds, verify: ScriptCheck, p: ChainParams, s: Coins, height: nat, b: Block)
    requires b.transactions != [] && BlockInputsOk(verify, p, s, height, b)
    ensures Connect(ids, s, b, height).Some?
    ensures DistinctIds(ids, b.transactions) && FreshOutputs(ids, s, b.transactions) ==>
              var c := Connect(ids, s, b, height).value;
              Disconnect(ids, c.coins, b, c.undo) == s
  {
    AcceptedSpends(verify, p, s, height, b.transactions);
    ApplyTxsSucceeds(ids, s, b.transactions, height);
    if DistinctIds(ids, b.transactions) && FreshOutputs(ids, s, b.transactions) {
      DisconnectInvertsIff(ids, s, b, height);
    }
  }

  /** Every input of an accepted block that is not a coinbase's is spendable, and its script check passed. */
  lemma {:induction false} SpendableInput(verify: ScriptCheck, p: ChainParams, s: Coins, height: nat, b: Block, t: nat, k: nat)
    requires b.transactions != [] && BlockInputsOk(verify, p, s, height, b)
    requires t < |b.transactions| && !IsCoinbase(b.transactions[t]) && k < |b.transactions[t].inputs|
    ensures var tx := b.transactions[t]; var op := tx.inputs[k].previousOutPoint;
            && op in s && (s[op].isCoinbase ==> height - s[op].height >= p.coinbaseMaturity)
            && verify(tx.inputs[k].signatureScript, s[op].pkScript, tx, k)
  {
    var tx := b.transactions[t];
    TxsOkPrefix(verify, p, s, height, b.transactions, t + 1);
    var first := b.transactions[..t + 1];
    assert first[|first| - 1] == tx;
    assert TxOk(verify, p, s, height, tx);
    assert Spendable(p, s, height, tx.inputs[k].previousOutPoint);
  }
}
