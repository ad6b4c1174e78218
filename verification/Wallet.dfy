/** Coin selection, fees and change (internal/wallet/txbuilder.go). */
module Wallet {
  import opened Types
  import opened Params
  import opened Arith
  import opened Utxo
  import opened TxValidation
  import opened Codec
  import opened Wire
  import opened Script

  const INPUT_SIZE: nat := 148
  const OUTPUT_SIZE: nat := 34
  const TX_OVERHEAD: nat := 10
  const DUST: nat := 546

  datatype Unspent = Unspent(outPoint: OutPoint, value: u64, height: u32, isCoinbase: bool)

  function Sub64(a: u64, b: u64): u64 {
    if a >= b then a - b else a - b + TWO64
  }

  // -------------------------------------------------------------------------- exact amounts

  function Size(inputs: nat, outputs: nat): nat {
    TX_OVERHEAD + inputs * INPUT_SIZE + outputs * OUTPUT_SIZE
  }

  /** The fee estimate, at least one unit. */
  function Fee(inputs: nat, outputs: nat, rate: u64): nat {
    if Size(inputs, outputs) * rate < 1 then 1 else Size(inputs, outputs) * rate
  }

  /** The same in uint64 arithmetic. */
  function Fee64(inputs: nat, outputs: nat, rate: u64): u64 {
    var fee := (Size(inputs, outputs) * rate) % TWO64;
    if fee < 1 then 1 else fee
  }

  function Sum(us: seq<Unspent>): nat {
    if us == [] then 0 else Sum(us[..|us| - 1]) + us[|us| - 1].value
  }

  /** No amount the selection can reach leaves 64 bits. */
  ghost predicate NoOverflow(us: seq<Unspent>, amount: u64, rate: u64) {
    Sum(us) < TWO64 && amount + Fee(|us|, 2, rate) < TWO64
  }

  lemma {:induction false} FeeMono(n: nat, m: nat, o: nat, q: nat, rate: u64)
    requires n <= m && o <= q
    ensures 1 <= Fee(n, o, rate) <= Fee(m, q, rate)
    ensures Fee(m, q, rate) < TWO64 ==> Fee64(n, o, rate) == Fee(n, o, rate)
  {
    MulMono(rate, Size(n, o), Size(m, q));
    MulMono(rate, 0, Size(n, o));
  }

  lemma {:induction false} SumPrefix(us: seq<Unspent>, k: nat)
    requires k <= |us|
    ensures Sum(us[..k]) <= Sum(us)
  {
    if k == |us| {
      assert us[..k] == us;
    } else {
      assert us[..|us| - 1][..k] == us[..k];
      SumPrefix(us[..|us| - 1], k);
    }
  }

  // ------------------------------------------------------------------------------ selection

  /** The first `k` coins pay the amount and a two-output fee. */
  ghost predicate PrefixCovers(us: seq<Unspent>, k: nat, amount: u64, rate: u64)
    requires k <= |us|
  {
    Sum(us[..k]) >= amount + Fee(k, 2, rate)
  }

  /** Takes coins from the front until they cover amount and fee. */
  method SelectCoins(us: seq<Unspent>, amount: u64, rate: u64) returns (r: Option<(seq<Unspent>, u64)>)
    ensures r.Some? ==> 0 < |r.value.0| <= |us| && r.value.0 == us[..|r.value.0|]
    ensures NoOverflow(us, amount, rate) ==>
              match r
              case None => forall k :: 0 <= k <= |us| ==> !PrefixCovers(us, k, amount, rate)
              case Some((selected, total)) =>
                && total == Sum(selected) && PrefixCovers(us, |selected|, amount, rate)
                && forall k :: 0 <= k < |selected| ==> !PrefixCovers(us, k, amount, rate)
  {
    var selected: seq<Unspent> := [];
    var total: u64 := 0;
    for i := 0 to |us|
      invariant selected == us[..i]
      invariant NoOverflow(us, amount, rate) ==> total == Sum(us[..i])
      invariant NoOverflow(us, amount, rate) ==> forall k :: 0 <= k <= i ==> !PrefixCovers(us, k, amount, rate)
    {
      assert us[..i + 1][..i] == us[..i];
      SumPrefix(us, i + 1);
      FeeMono(i + 1, |us|, 2, 2, rate);
      selected := selected + [us[i]];
      total := Add64(total, us[i].value);
      var fee := Fee64(|selected|, 2, rate);
      if total >= Add64(amount, fee) { return Some((selected, total)); }
    }
    return None;
  }

  // ------------------------------------------------------------------- it is the best choice

  ghost predicate Descending(us: seq<Unspent>) {
    forall i, j :: 0 <= i < j < |us| ==> us[i].value >= us[j].value
  }

  /** The value of the coins at the chosen positions. */
  ghost function SumAt(us: seq<Unspent>, chosen: set<nat>): nat {
    if us == [] then 0 else
    var n := |us| - 1;
    SumAt(us[..n], chosen) + if n in chosen then us[n].value else 0
  }

  ghost predicate Within(chosen: set<nat>, n: nat) {
    forall i :: i in chosen ==> i < n
  }

  lemma {:induction false} WithinSize(chosen: set<nat>, n: nat)
    requires Within(chosen, n)
    ensures |chosen| <= n
  {
    if n == 0 {
      assert chosen == {};
    } else {
      WithinSize(chosen - {n - 1}, n - 1);
    }
  }

  lemma {:induction false} SumAtIgnores(us: seq<Unspent>, chosen: set<nat>, n: nat)
    requires n >= |us|
    ensures SumAt(us, chosen - {n}) == SumAt(us, chosen)
  {
    if us != [] { SumAtIgnores(us[..|us| - 1], chosen, n); }
  }

  lemma {:induction false} DropLast(chosen: set<nat>, n: nat)
    requires Within(chosen, n + 1)
    ensures Within(chosen - {n}, n) && (n in chosen ==> |chosen - {n}| == |chosen| - 1)
    ensures n !in chosen ==> Within(chosen, n)
  {
  }

  /** Among all choices of equally many coins, the front of a descending list is worth most. */
  lemma {:induction false} FrontIsBest(us: seq<Unspent>, chosen: set<nat>)
    requires Descending(us) && Within(chosen, |us|)
    ensures |chosen| <= |us| && SumAt(us, chosen) <= Sum(us[..|chosen|])
  {
    hide Within;
    WithinSize(chosen, |us|);
    if us != [] {
      var n := |us| - 1;
      DropLast(chosen, n);
      if n in chosen {
        var rest := chosen - {n};
        FrontIsBest(us[..n], rest);
        SumAtIgnores(us[..n], chosen, n);
        var k := |rest|;
        assert us[..n][..k] == us[..k] && us[..k + 1][..k] == us[..k];
      } else {
        FrontIsBest(us[..n], chosen);
        assert us[..n][..|chosen|] == us[..|chosen|];
      }
    }
  }

  /** A choice of coins that pays amount and fee. */
  ghost predicate Covers(us: seq<Unspent>, chosen: set<nat>, amount: u64, rate: u64) {
    Within(chosen, |us|) && SumAt(us, chosen) >= amount + Fee(|chosen|, 2, rate)
  }

  lemma {:induction false} CoverMeansPrefix(us: seq<Unspent>, chosen: set<nat>, amount: u64, rate: u64)
    requires Descending(us) && Covers(us, chosen, amount, rate)
    ensures |chosen| <= |us| && PrefixCovers(us, |chosen|, amount, rate)
  {
    FrontIsBest(us, chosen);
  }

  /** The first `k` positions. */
  ghost function Front(k: nat): set<nat> {
    if k == 0 then {} else Front(k - 1) + {k - 1}
  }

  lemma {:induction false} FrontIs(k: nat, i: nat)
    ensures i in Front(k) <==> i < k
  {
    if k > 0 { FrontIs(k - 1, i); }
  }

  lemma {:induction false} FrontSize(k: nat)
    ensures |Front(k)| == k
  {
    if k > 0 {
      FrontSize(k - 1);
      FrontIs(k - 1, k - 1);
    }
  }

  lemma {:induction false} SumAtFront(us: seq<Unspent>, chosen: set<nat>, k: nat)
    requires k <= |us| && forall i: nat :: i < |us| ==> (i in chosen <==> i < k)
    ensures SumAt(us, chosen) == Sum(us[..k])
  {
    if us != [] {
      var n := |us| - 1;
      SumAtFront(us[..n], chosen, if k > n then n else k);
      assert us[..n][..if k > n then n else k] == us[..if k > n then n else k];
      if k > n { assert us[..k] == us; }
    }
  }

  lemma {:induction false} FrontSum(us: seq<Unspent>, k: nat)
    requires k <= |us|
    ensures |Front(k)| == k && Within(Front(k), |us|) && SumAt(us, Front(k)) == Sum(us[..k])
  {
    hide Front;
    FrontSize(k);
    forall i: nat ensures i in Front(k) <==> i < k { FrontIs(k, i); }
    SumAtFront(us, Front(k), k);
  }

  // ----------------------------------------------------------------------- spendable coins

  /** Confirmed, and mature if it comes from a coinbase; confirmations are counted in uint32. */
  predicate Ripe(u: Unspent, maturity: u32, tip: u32) {
    var confs := if tip >= u.height then (tip - u.height + 1) % TWO32 else 0;
    confs >= 1 && (u.isCoinbase ==> confs >= maturity)
  }

  /** The ripe coins, in their order. */
  function RipeOf(us: seq<Unspent>, maturity: u32, tip: u32): seq<Unspent> {
    if us == [] then [] else
    var last := us[|us| - 1];
    RipeOf(us[..|us| - 1], maturity, tip) + if Ripe(last, maturity, tip) then [last] else []
  }

  method FilterSpendable(us: seq<Unspent>, maturity: u32, tip: u32) returns (r: seq<Unspent>)
    ensures r == RipeOf(us, maturity, tip)
  {
    r := [];
    for i := 0 to |us|
      invariant r == RipeOf(us[..i], maturity, tip)
    {
      assert us[..i + 1][..i] == us[..i];
      var confs: u32 := 0;
      if tip >= us[i].height { confs := (tip - us[i].height + 1) % TWO32; }
      if confs < 1 { continue; }
      if us[i].isCoinbase && confs < maturity { continue; }
      r := r + [us[i]];
    }
    assert us[..|us|] == us;
  }

  /**
   * A coin the UTXO set knows is ripe exactly when consensus lets the next block spend it, it is not above the tip,
   * and its confirmations do not wrap.
   */
  lemma {:induction false} RipeIsSpendable(p: ChainParams, s: Coins, u: Unspent, tip: u32)
    requires u.outPoint in s && s[u.outPoint].height == u.height && s[u.outPoint].isCoinbase == u.isCoinbase
    ensures Ripe(u, p.coinbaseMaturity, tip) <==>
            u.height <= tip && tip - u.height + 1 < TWO32 && Spendable(p, s, tip + 1, u.outPoint)
  {
  }

  function InsertByValue(us: seq<Unspent>, u: Unspent): seq<Unspent> {
    if us == [] || us[|us| - 1].value >= u.value then us + [u] else InsertByValue(us[..|us| - 1], u) + [us[|us| - 1]]
  }

  lemma {:induction false} InsertKeepsCoins(us: seq<Unspent>, u: Unspent)
    ensures multiset(InsertByValue(us, u)) == multiset(us) + multiset{u}
  {
    if us != [] && us[|us| - 1].value < u.value {
      var init, last := us[..|us| - 1], us[|us| - 1];
      assert us == init + [last];
      InsertKeepsCoins(init, u);
    }
  }

  lemma {:induction false} InsertKeepsOrder(us: seq<Unspent>, u: Unspent)
    requires Descending(us)
    ensures Descending(InsertByValue(us, u))
  {
    if us != [] && us[|us| - 1].value < u.value {
      var init, last := us[..|us| - 1], us[|us| - 1];
      InsertKeepsOrder(init, u);
      InsertKeepsCoins(init, u);
      var r := InsertByValue(init, u);
      forall i | 0 <= i < |r| ensures r[i].value >= last.value {
        assert r[i] in multiset(r);
        assert r[i] == u || r[i] in init;
      }
    }
  }

  method SortByValue(us: seq<Unspent>) returns (r: seq<Unspent>)
    ensures Descending(r) && multiset(r) == multiset(us)
  {
    r := [];
    for i := 0 to |us|
      invariant Descending(r) && multiset(r) == multiset(us[..i])
    {
      assert us[..i + 1] == us[..i] + [us[i]];
      InsertKeepsOrder(r, us[i]);
      InsertKeepsCoins(r, us[i]);
      r := InsertByValue(r, us[i]);
    }
    assert us[..|us|] == us;
  }

  // ------------------------------------------------------------------------- the transaction

  /** Fee and change in uint64 arithmetic: refused, no change output, or its value. */
  method SplitChange(total: u64, amount: u64, n: nat, rate: u64) returns (ok: bool, change: Option<u64>)
    ensures total >= amount + Fee(n, 2, rate) ==>
              && ok
              && match change
                 case None => Fee(n, 2, rate) <= total - amount <= Fee(n, 2, rate) + DUST
                 case Some(c) => c > DUST && total == amount + c + Fee(n, 2, rate)
  {
    FeeMono(n, n, 1, 2, rate);
    FeeMono(n, n, 2, 2, rate);
    var fee := Fee64(n, 1, rate);
    var remaining := Sub64(total, amount);
    if remaining < fee { return false, None; }
    if remaining - fee > DUST {
      var newChange := Sub64(Sub64(total, amount), Fee64(n, 2, rate));
      return true, if newChange > DUST then Some(newChange) else None;
    }
    return true, None;
  }

  function InputsOf(us: seq<Unspent>): (r: seq<TxInput>)
    ensures |r| == |us| && forall i :: 0 <= i < |us| ==> r[i] == TxInput(us[i].outPoint, [], 0xFFFF_FFFF)
  {
    seq(|us|, i requires 0 <= i < |us| => TxInput(us[i].outPoint, [], 0xFFFF_FFFF))
  }

  /** What the wallet pays beyond its outputs. */
  ghost function Paid(selected: seq<Unspent>, tx: Transaction): int {
    Sum(selected) - SumOut(tx.outputs)
  }

  /** An unsigned payment out of `us`: the fewest coins that do, nothing lost, and a fee within dust of the estimate. */
  ghost predicate PaysFrom(us: seq<Unspent>, selected: seq<Unspent>, tx: Transaction, amount: u64, rate: u64, dest: Bytes, change: Bytes) {
    && selected <= us && selected != [] && tx.inputs == InputsOf(selected)
    && (forall chosen :: Covers(us, chosen, amount, rate) ==> |selected| <= |chosen|)
    && 1 <= |tx.outputs| <= 2 && tx.outputs[0] == TxOutput(amount, dest)
    && (|tx.outputs| == 2 ==> tx.outputs[1].value > DUST && tx.outputs[1].pkScript == change)
    && Fee(|selected|, 2, rate) <= Paid(selected, tx) <= Fee(|selected|, 2, rate) + DUST
    && (|tx.outputs| == 2 ==> Paid(selected, tx) == Fee(|selected|, 2, rate))
  }

  /** Refused exactly for a zero amount or when no choice of coins covers; otherwise such a payment. */
  ghost predicate Settles(us: seq<Unspent>, selected: seq<Unspent>, r: Option<Transaction>, amount: u64, rate: u64,
                          dest: Bytes, change: Bytes) {
    NoOverflow(us, amount, rate) ==>
      && (r.None? <==> amount == 0 || forall chosen :: !Covers(us, chosen, amount, rate))
      && (r.Some? ==> PaysFrom(us, selected, r.value, amount, rate, dest, change))
  }

  lemma {:induction false} SumOutOne(a: TxOutput)
    ensures SumOut([a]) == a.value
  {
    assert [a][..0] == [] && SumOut([a][..0]) == 0;
  }

  lemma {:induction false} SumOutTwo(a: TxOutput, b: TxOutput)
    ensures SumOut([a, b]) == a.value + b.value
  {
    assert [a, b][..1] == [a];
    SumOutOne(a);
  }

  /** Builds the payment; signing comes after and touches neither outpoints nor outputs. */
  method BuildTransaction(utxos: seq<Unspent>, amount: u64, rate: u64, maturity: u32, tip: u32, dest: Bytes, change: Bytes)
    returns (r: Option<Transaction>)
    ensures exists us, selected ::
              && Descending(us) && multiset(us) == multiset(RipeOf(utxos, maturity, tip))
              && Settles(us, selected, r, amount, rate, dest, change)
    ensures r.Some? ==> r.value.version == 1 && r.value.lockTime == tip
  {
    hide Fee, Fee64, RipeOf, Covers;
    var us := FilterSpendable(utxos, maturity, tip);
    us := SortByValue(us);
    if amount == 0 {
      assert Settles(us, [], None, amount, rate, dest, change);
      return None;
    }
    var coins := SelectCoins(us, amount, rate);
    SelectionIsBest(us, amount, rate, coins);
    if coins.None? {
      assert Settles(us, [], None, amount, rate, dest, change);
      return None;
    }
    var ok, extra := SplitChange(coins.value.1, amount, |coins.value.0|, rate);
    if !ok {
      assert Settles(us, [], None, amount, rate, dest, change);
      return None;
    }
    var outputs := [TxOutput(amount, dest)];
    SumOutOne(outputs[0]);
    if extra.Some? {
      SumOutTwo(outputs[0], TxOutput(extra.value, change));
      outputs := [TxOutput(amount, dest), TxOutput(extra.value, change)];
    }
    r := Some(Transaction(1, InputsOf(coins.value.0), outputs, tip));
    assert Settles(us, coins.value.0, r, amount, rate, dest, change);
  }

  /** What a finished selection says about all choices. */
  lemma {:induction false} SelectionIsBest(us: seq<Unspent>, amount: u64, rate: u64, r: Option<(seq<Unspent>, u64)>)
    requires Descending(us)
    requires r.Some? ==> 0 < |r.value.0| <= |us| && r.value.0 == us[..|r.value.0|]
    requires NoOverflow(us, amount, rate) ==>
               match r
               case None => forall k :: 0 <= k <= |us| ==> !PrefixCovers(us, k, amount, rate)
               case Some((selected, total)) =>
                 && total == Sum(selected) && PrefixCovers(us, |selected|, amount, rate)
                 && forall k :: 0 <= k < |selected| ==> !PrefixCovers(us, k, amount, rate)
    ensures NoOverflow(us, amount, rate) ==>
              && (r.None? <==> forall chosen :: !Covers(us, chosen, amount, rate))
              && (r.Some? ==> forall chosen :: Covers(us, chosen, amount, rate) ==> |r.value.0| <= |chosen|)
  {
    hide Fee;
    forall chosen | Covers(us, chosen, amount, rate) ensures |chosen| <= |us| && PrefixCovers(us, |chosen|, amount, rate) {
      CoverMeansPrefix(us, chosen, amount, rate);
    }
    if r.Some? && NoOverflow(us, amount, rate) {
      FrontSum(us, |r.value.0|);
      assert Covers(us, Front(|r.value.0|), amount, rate);
    }
  }

  // -------------------------------------------------------------------- what consensus thinks

  /** The wallet's view of its coins is the UTXO set's. */
  ghost predicate Known(s: Coins, us: seq<Unspent>) {
    && (forall i :: 0 <= i < |us| ==>
          && us[i].outPoint in s && s[us[i].outPoint].value == us[i].value
          && s[us[i].outPoint].height == us[i].height && s[us[i].outPoint].isCoinbase == us[i].isCoinbase)
    && (forall i, j :: 0 <= i < j < |us| ==> us[i].outPoint != us[j].outPoint)
  }

  lemma {:induction false} SelectedValue(s: Coins, us: seq<Unspent>)
    requires Known(s, us)
    ensures SumIn(s, InputsOf(us)) == Sum(us)
  {
    if us != [] {
      var init := us[..|us| - 1];
      assert InputsOf(us)[..|us| - 1] == InputsOf(init);
      SelectedValue(s, init);
    }
  }

  /** The payment passes every value rule of transaction validation, and the fee consensus sees is the fee paid. */
  lemma {:induction false} PaymentIsAcceptable(p: ChainParams, s: Coins, us: seq<Unspent>, selected: seq<Unspent>, tx: Transaction,
                                               amount: u64, rate: u64, tip: u32, dest: Bytes, change: Bytes)
    requires PaysFrom(us, selected, tx, amount, rate, dest, change) && Known(s, us) && amount > 0
    requires Sum(us) <= MAX_MONEY
    requires forall i :: 0 <= i < |us| ==> Ripe(us[i], p.coinbaseMaturity, tip)
    ensures InputsOk(p, s, tip + 1, tx.inputs) && OutputsOk(tx.outputs)
    ensures FeeOf(s, tx) == Paid(selected, tx) >= 1 && SumOut(tx.outputs) <= SumIn(s, tx.inputs)
  {
    hide Fee, Covers, Ripe;
    assert forall i :: 0 <= i < |selected| ==> selected[i] == us[i];
    SelectedValue(s, selected);
    SumPrefix(us, |selected|);
    assert us[..|selected|] == selected;
    FeeMono(|selected|, |selected|, 2, 2, rate);
    forall i | 0 <= i < |tx.inputs| ensures Spendable(p, s, tip + 1, tx.inputs[i].previousOutPoint) {
      RipeIsSpendable(p, s, us[i], tip);
    }
    var outs := tx.outputs;
    if |outs| == 2 {
      assert outs == [outs[0], outs[1]];
      SumOutTwo(outs[0], outs[1]);
    } else {
      assert outs == [outs[0]];
      SumOutOne(outs[0]);
    }
  }

  // ------------------------------------------------------------- the estimate and the real size

  const DER_SIZE: nat := 71
  const KEY_SIZE: nat := 33

  /** Signatures shorter than the estimate expects, in bytes; longer ones count against it. */
  function Slack(ders: seq<Bytes>): int {
    if ders == [] then 0 else DER_SIZE - |ders[0]| + Slack(ders[1..])
  }

  /** Every input carries the built script for its signature and a compressed key. */
  ghost predicate SignedWith(ins: seq<TxInput>, ders: seq<Bytes>, pubs: seq<Bytes>) {
    && |ders| == |pubs| == |ins|
    && forall i :: 0 <= i < |ins| ==>
         && |ins[i].previousOutPoint.hash| == HASH_SIZE && |ders[i]| <= 74 && |pubs[i]| == KEY_SIZE
         && ins[i].signatureScript == MakeP2PKHSignatureScript(ders[i] + [0x01], pubs[i])
  }

  ghost predicate PaysKeyHashes(outs: seq<TxOutput>) {
    forall i :: 0 <= i < |outs| ==> IsP2PKHScript(outs[i].pkScript)
  }

  lemma {:induction false} InputsSize(ins: seq<TxInput>, ders: seq<Bytes>, pubs: seq<Bytes>)
    requires SignedWith(ins, ders, pubs)
    ensures |EncMany(EncInput, ins)| + Slack(ders) == INPUT_SIZE * |ins|
  {
    hide PutVarInt, LE;
    if ins != [] {
      InputsSize(ins[1..], ders[1..], pubs[1..]);
      VarIntRoundTrip(|ins[0].signatureScript| % TWO64, []);
      assert |EncInput(ins[0])| == INPUT_SIZE - (DER_SIZE - |ders[0]|);
    }
  }

  lemma {:induction false} OutputsSize(outs: seq<TxOutput>)
    requires PaysKeyHashes(outs)
    ensures |EncMany(EncOutput, outs)| == OUTPUT_SIZE * |outs|
  {
    hide PutVarInt, LE;
    if outs != [] {
      OutputsSize(outs[1..]);
      VarIntRoundTrip(|outs[0].pkScript| % TWO64, []);
    }
  }

  /** The estimate against the bytes of the signed payment: what it misses is the longer count of 253 inputs or more. */
  lemma {:induction false} EstimateIs(tx: Transaction, ders: seq<Bytes>, pubs: seq<Bytes>)
    requires SignedWith(tx.inputs, ders, pubs) && PaysKeyHashes(tx.outputs) && |tx.inputs| < TWO64 && |tx.outputs| <= 2
    ensures |EncTx(tx)| + Slack(ders) == Size(|tx.inputs|, |tx.outputs|) + VarIntSize(|tx.inputs|) - 1
  {
    hide PutVarInt, LE, EncInput, EncOutput, SignedWith, PaysKeyHashes, Slack, EncMany, IsP2PKHScript;
    InputsSize(tx.inputs, ders, pubs);
    OutputsSize(tx.outputs);
    VarIntRoundTrip(|tx.inputs|, []);
    VarIntRoundTrip(|tx.outputs|, []);
    assert |LE(tx.version, 4)| == 4 && |LE(tx.lockTime, 4)| == 4;
  }

  /** So the fee is paid for every byte exactly when the signatures save what the input count needs; below 253 inputs it needs nothing. */
  lemma {:induction false} EstimateCoversIff(tx: Transaction, ders: seq<Bytes>, pubs: seq<Bytes>)
    requires SignedWith(tx.inputs, ders, pubs) && PaysKeyHashes(tx.outputs) && |tx.inputs| < TWO64 && |tx.outputs| <= 2
    ensures |EncTx(tx)| <= Size(|tx.inputs|, |tx.outputs|) <==> Slack(ders) >= VarIntSize(|tx.inputs|) - 1
    ensures |tx.inputs| <= 252 && (forall i :: 0 <= i < |ders| ==> |ders[i]| <= DER_SIZE) ==> |EncTx(tx)| <= Size(|tx.inputs|, |tx.outputs|)
    ensures |tx.inputs| >= 253 && (forall i :: 0 <= i < |ders| ==> |ders[i]| == DER_SIZE) ==> |EncTx(tx)| > Size(|tx.inputs|, |tx.outputs|)
  {
    hide EncTx, SignedWith, PaysKeyHashes;
    EstimateIs(tx, ders, pubs);
    SlackSign(ders);
  }

  lemma {:induction false} SlackSign(ders: seq<Bytes>)
    ensures (forall i :: 0 <= i < |ders| ==> |ders[i]| <= DER_SIZE) ==> Slack(ders) >= 0
    ensures (forall i :: 0 <= i < |ders| ==> |ders[i]| == DER_SIZE) ==> Slack(ders) == 0
  {
    if ders != [] { SlackSign(ders[1..]); }
  }

  /** Such a payment with more inputs than the estimate allows for exists. */
  lemma {:induction false} LongPaymentExists() returns (tx: Transaction, ders: seq<Bytes>, pubs: seq<Bytes>)
    ensures SignedWith(tx.inputs, ders, pubs) && PaysKeyHashes(tx.outputs) && |tx.outputs| == 2
    ensures |EncTx(tx)| > Size(|tx.inputs|, |tx.outputs|)
  {
    hide EncTx, IsP2PKHScript, MakeP2PKHScript, MakeP2PKHSignatureScript;
    var der: Bytes, pub: Bytes, hash: Bytes := seq(DER_SIZE, _ => 1), seq(KEY_SIZE, _ => 2), seq(HASH_SIZE, _ => 3);
    var pk := MakeP2PKHScript(seq(KEY_HASH_SIZE, _ => 4));
    P2PKHPattern(pk);
    ders, pubs := seq(253, _ => der), seq(253, _ => pub);
    var ins := seq(253, i => TxInput(OutPoint(hash, i % TWO32), MakeP2PKHSignatureScript(der + [0x01], pub), 0));
    tx := Transaction(1, ins, [TxOutput(1, pk), TxOutput(1, pk)], 0);
    EstimateCoversIff(tx, ders, pubs);
  }

  /** A payment as the wallet built it, with its inputs signed. */
  ghost predicate IsSigned(tx: Transaction, signed: Transaction, ders: seq<Bytes>, pubs: seq<Bytes>) {
    && signed.outputs == tx.outputs && SignedWith(signed.inputs, ders, pubs) && |signed.inputs| == |tx.inputs|
    && forall i :: 0 <= i < |tx.inputs| ==> signed.inputs[i].previousOutPoint == tx.inputs[i].previousOutPoint
  }

  /** So a payment of up to 252 inputs pays the asked rate for every byte it has once it is signed. */
  lemma {:induction false} EveryByteIsPaid(us: seq<Unspent>, selected: seq<Unspent>, tx: Transaction, amount: u64, rate: u64, dest: Bytes,
                                           change: Bytes, signed: Transaction, ders: seq<Bytes>, pubs: seq<Bytes>)
    requires PaysFrom(us, selected, tx, amount, rate, dest, change) && IsSigned(tx, signed, ders, pubs)
    requires PaysKeyHashes(tx.outputs) && |selected| <= 252 && forall i :: 0 <= i < |ders| ==> |ders[i]| <= DER_SIZE
    ensures Paid(selected, tx) >= rate * |EncTx(signed)|
  {
    hide EncTx, SignedWith, PaysKeyHashes, Covers, Sum;
    EstimateCoversIff(signed, ders, pubs);
    MulMono(rate, |EncTx(signed)|, Size(|selected|, 2));
  }
}
