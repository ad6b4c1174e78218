/** The UTXO set and its two block transitions (internal/utxo/utxo.go). */
module Utxo {
  import opened Types

  datatype Entry = Entry(value: u64, pkScript: Bytes, height: nat, isCoinbase: bool)

  type Coins = map<OutPoint, Entry>

  datatype SpentOutput = SpentOutput(outPoint: OutPoint, entry: Entry)

  // ---------------------------------------------------------------- connect, as a function

  function EntryFor(tx: Transaction, i: nat, height: nat): Entry
    requires i < |tx.outputs|
  {
    Entry(tx.outputs[i].value, tx.outputs[i].pkScript, height, IsCoinbase(tx))
  }

  /** The entries of the first `n` outputs of a transaction. */
  function FirstOutputs(id: Hash, tx: Transaction, height: nat, n: nat): Coins
    requires n <= |tx.outputs|
  {
    if n == 0 then map[]
    else FirstOutputs(id, tx, height, n - 1)[OutPoint(id, n - 1) := EntryFor(tx, n - 1, height)]
  }

  lemma {:induction false} FirstOutputsAre(id: Hash, tx: Transaction, height: nat, n: nat)
    requires n <= |tx.outputs|
    ensures var m := FirstOutputs(id, tx, height, n);
            && (forall op :: op in m <==> op.hash == id && op.index < n)
            && (forall op :: op in m ==> m[op] == EntryFor(tx, op.index, height))
  {
    if n > 0 { FirstOutputsAre(id, tx, height, n - 1); }
  }

  function OutputsOf(id: Hash, tx: Transaction, height: nat): Coins {
    FirstOutputs(id, tx, height, |tx.outputs|)
  }

  /** What a connect accumulates before it touches the set. */
  datatype Pending = Pending(spent: set<OutPoint>, created: Coins, added: Coins, undo: seq<SpentOutput>)

  const NOTHING_PENDING := Pending({}, map[], map[], [])

  function SpendOne(s: Coins, w: Pending, op: OutPoint): Option<Pending> {
    if op in w.spent then None
    else if op in w.created then
      Some(Pending(w.spent + {op}, w.created - {op}, w.added, w.undo + [SpentOutput(op, w.created[op])]))
    else if op in s then
      Some(Pending(w.spent + {op}, w.created - {op}, w.added, w.undo + [SpentOutput(op, s[op])]))
    else None
  }

  function SpendInputs(s: Coins, w: Pending, ins: seq<TxInput>): Option<Pending> {
    if ins == [] then Some(w) else
    var r := SpendInputs(s, w, ins[..|ins| - 1]);
    if r.None? then None else SpendOne(s, r.value, ins[|ins| - 1].previousOutPoint)
  }

  function ApplyTx(ids: TxIds, s: Coins, w: Pending, tx: Transaction, height: nat): Option<Pending> {
    var r := if IsCoinbase(tx) then Some(w) else SpendInputs(s, w, tx.inputs);
    if r.None? then None else
    var outs := OutputsOf(ids(tx), tx, height);
    Some(r.value.(created := r.value.created + outs, added := r.value.added + outs))
  }

  function ApplyTxs(ids: TxIds, s: Coins, txs: seq<Transaction>, height: nat): Option<Pending> {
    if txs == [] then Some(NOTHING_PENDING) else
    var r := ApplyTxs(ids, s, txs[..|txs| - 1], height);
    if r.None? then None else ApplyTx(ids, s, r.value, txs[|txs| - 1], height)
  }

  datatype Connected = Connected(coins: Coins, undo: seq<SpentOutput>)

  function Connect(ids: TxIds, s: Coins, b: Block, height: nat): Option<Connected> {
    var r := ApplyTxs(ids, s, b.transactions, height);
    if r.None? then None
    else Some(Connected((s - r.value.spent) + (r.value.added - r.value.spent), r.value.undo))
  }

  // ------------------------------------------------------------- disconnect, as a function

  function OutputKeys(ids: TxIds, txs: seq<Transaction>): set<OutPoint> {
    if txs == [] then {} else
    OutputKeys(ids, txs[..|txs| - 1]) + OutputsOf(ids(txs[|txs| - 1]), txs[|txs| - 1], 0).Keys
  }

  function Restore(s: Coins, undo: seq<SpentOutput>): Coins {
    if undo == [] then s
    else Restore(s, undo[..|undo| - 1])[undo[|undo| - 1].outPoint := undo[|undo| - 1].entry]
  }

  function Disconnect(ids: TxIds, s: Coins, b: Block, undo: seq<SpentOutput>): Coins {
    Restore(s - OutputKeys(ids, b.transactions), undo)
  }

  function IsLegacyPlaceholder(pk: Bytes): bool {
    |pk| == 0 || (|pk| == 1 && pk[0] == 0)
  }

  // ----------------------------------------------------------------- the inverse theorem

  /** No two transactions of the list share an id (the duplicate check of block validation). */
  ghost predicate DistinctIds(ids: TxIds, txs: seq<Transaction>) {
    forall i, j :: 0 <= i < j < |txs| ==> ids(txs[i]) != ids(txs[j])
  }

  /** No output of the list is already in the set. */
  ghost predicate FreshOutputs(ids: TxIds, s: Coins, txs: seq<Transaction>) {
    forall i, op :: 0 <= i < |txs| && op in s ==> op.hash != ids(txs[i]) || op.index >= |txs[i].outputs|
  }

  lemma {:induction false} OutputKeyOf(ids: TxIds, txs: seq<Transaction>, op: OutPoint) returns (i: nat)
    requires op in OutputKeys(ids, txs)
    ensures i < |txs| && op.hash == ids(txs[i]) && op.index < |txs[i].outputs|
  {
    var n := |txs| - 1;
    if op in OutputKeys(ids, txs[..n]) {
      i := OutputKeyOf(ids, txs[..n], op);
    } else {
      FirstOutputsAre(ids(txs[n]), txs[n], 0, |txs[n].outputs|);
      i := n;
    }
  }

  /** The entries an undo list records, the last record of a key winning. */
  function Recorded(undo: seq<SpentOutput>): Coins {
    Restore(map[], undo)
  }

  lemma {:induction false} RestoreIsOverlay(s: Coins, undo: seq<SpentOutput>)
    ensures Restore(s, undo) == s + Recorded(undo)
  {
    if undo != [] { RestoreIsOverlay(s, undo[..|undo| - 1]); }
  }

  lemma {:induction false} RecordedAppend(undo: seq<SpentOutput>, x: SpentOutput)
    ensures Recorded(undo + [x]) == Recorded(undo)[x.outPoint := x.entry]
  {
    assert (undo + [x])[..|undo|] == undo;
  }

  /** What a connect has pending while every created key is new. */
  ghost predicate CleanPending(s: Coins, w: Pending) {
    && s.Keys !! w.added.Keys
    && w.created == w.added - w.spent
    && w.spent <= s.Keys + w.added.Keys
    && Recorded(w.undo).Keys == w.spent
    && (forall op :: op in w.spent ==> Recorded(w.undo)[op] == if op in s then s[op] else w.added[op])
  }

  lemma {:induction false} RecordClean(s: Coins, w: Pending, op: OutPoint, e: Entry)
    requires CleanPending(s, w) && op !in w.spent && op in s.Keys + w.added.Keys
    requires e == if op in s then s[op] else w.added[op]
    ensures CleanPending(s, Pending(w.spent + {op}, w.created - {op}, w.added, w.undo + [SpentOutput(op, e)]))
  {
    hide Recorded;
    RecordedAppend(w.undo, SpentOutput(op, e));
    assert w.created - {op} == w.added - (w.spent + {op});
  }

  lemma {:induction false} SpendOneClean(s: Coins, w: Pending, op: OutPoint)
    requires CleanPending(s, w)
    ensures SpendOne(s, w, op).Some? ==> CleanPending(s, SpendOne(s, w, op).value)
    ensures SpendOne(s, w, op).Some? ==> SpendOne(s, w, op).value.added == w.added
  {
    if SpendOne(s, w, op).Some? {
      var e := if op in w.created then w.created[op] else s[op];
      assert e == if op in s then s[op] else w.added[op];
      RecordClean(s, w, op, e);
    }
  }

  lemma {:induction false} SpendInputsClean(s: Coins, w: Pending, ins: seq<TxInput>)
    requires CleanPending(s, w)
    ensures SpendInputs(s, w, ins).Some? ==> CleanPending(s, SpendInputs(s, w, ins).value)
    ensures SpendInputs(s, w, ins).Some? ==> SpendInputs(s, w, ins).value.added == w.added
  {
    if ins != [] {
      var init := ins[..|ins| - 1];
      SpendInputsClean(s, w, init);
      var r := SpendInputs(s, w, init);
      if r.Some? { SpendOneClean(s, r.value, ins[|ins| - 1].previousOutPoint); }
    }
  }

  lemma {:induction false} AddOutputsClean(s: Coins, w: Pending, outs: Coins)
    requires CleanPending(s, w)
    requires outs.Keys !! s.Keys && outs.Keys !! w.added.Keys
    ensures CleanPending(s, w.(created := w.created + outs, added := w.added + outs))
  {
    assert w.created + outs == (w.added + outs) - w.spent;
  }

  lemma {:induction false} ApplyTxClean(ids: TxIds, s: Coins, w: Pending, tx: Transaction, height: nat)
    requires CleanPending(s, w)
    requires OutputsOf(ids(tx), tx, height).Keys !! s.Keys
    requires OutputsOf(ids(tx), tx, height).Keys !! w.added.Keys
    ensures var r := ApplyTx(ids, s, w, tx, height);
            r.Some? ==> CleanPending(s, r.value) && r.value.added == w.added + OutputsOf(ids(tx), tx, height)
  {
    SpendInputsClean(s, w, tx.inputs);
    var mid := if IsCoinbase(tx) then Some(w) else SpendInputs(s, w, tx.inputs);
    if mid.Some? { AddOutputsClean(s, mid.value, OutputsOf(ids(tx), tx, height)); }
  }

  lemma {:induction false} ApplyTxsClean(ids: TxIds, s: Coins, txs: seq<Transaction>, height: nat)
    requires DistinctIds(ids, txs) && FreshOutputs(ids, s, txs)
    ensures var r := ApplyTxs(ids, s, txs, height);
            r.Some? ==> CleanPending(s, r.value) && r.value.added.Keys == OutputKeys(ids, txs)
  {
    if txs != [] {
      var n := |txs| - 1;
      ApplyTxsClean(ids, s, txs[..n], height);
      var r := ApplyTxs(ids, s, txs[..n], height);
      if r.Some? {
        forall op | op in r.value.added ensures op.hash != ids(txs[n]) {
          var i := OutputKeyOf(ids, txs[..n], op);
        }
        FirstOutputsAre(ids(txs[n]), txs[n], height, |txs[n].outputs|);
        FirstOutputsAre(ids(txs[n]), txs[n], 0, |txs[n].outputs|);
        ApplyTxClean(ids, s, r.value, txs[n], height);
      }
    }
  }

  /** Entries created and then spent while pending. */
  function SpentWhilePending(w: Pending): Coins {
    map op | op in w.added && op in w.spent :: w.added[op]
  }

  lemma {:induction false} CommitKeys(s: Coins, w: Pending)
    requires CleanPending(s, w)
    ensures ((s - w.spent) + (w.added - w.spent)) - w.added.Keys == s - w.spent
  {
  }

  lemma {:induction false} CommitUndone(s: Coins, w: Pending)
    requires CleanPending(s, w)
    ensures Restore(s - w.spent, w.undo) == s + SpentWhilePending(w)
  {
    RestoreIsOverlay(s - w.spent, w.undo);
    assert (s - w.spent) + Recorded(w.undo) == s + SpentWhilePending(w);
  }

  /** The outputs a block both creates and spends. */
  ghost function SelfSpent(ids: TxIds, s: Coins, b: Block, height: nat): Coins
    requires Connect(ids, s, b, height).Some?
  {
    SpentWhilePending(ApplyTxs(ids, s, b.transactions, height).value)
  }

  /** Undoing a connected block gives the old set plus exactly the outputs it created and spent itself. */
  lemma {:induction false} DisconnectAfterConnect(ids: TxIds, s: Coins, b: Block, height: nat)
    requires DistinctIds(ids, b.transactions) && FreshOutputs(ids, s, b.transactions)
    requires Connect(ids, s, b, height).Some?
    ensures var c := Connect(ids, s, b, height).value;
            Disconnect(ids, c.coins, b, c.undo) == s + SelfSpent(ids, s, b, height)
  {
    ApplyTxsClean(ids, s, b.transactions, height);
    var w := ApplyTxs(ids, s, b.transactions, height).value;
    CommitKeys(s, w);
    CommitUndone(s, w);
  }

  // ------------------------------------------------------- closed form, and the exact condition

  function InputSet(ins: seq<TxInput>): (ops: set<OutPoint>)
    ensures forall i :: 0 <= i < |ins| ==> ins[i].previousOutPoint in ops
  {
    if ins == [] then {} else InputSet(ins[..|ins| - 1]) + {ins[|ins| - 1].previousOutPoint}
  }

  /** Every outpoint the list spends; a coinbase spends nothing. */
  function SpentSet(txs: seq<Transaction>): set<OutPoint> {
    if txs == [] then {} else
    var tx := txs[|txs| - 1];
    SpentSet(txs[..|txs| - 1]) + if IsCoinbase(tx) then {} else InputSet(tx.inputs)
  }

  /** Every entry the list creates. */
  function BlockOutputs(ids: TxIds, txs: seq<Transaction>, height: nat): Coins {
    if txs == [] then map[] else
    var tx := txs[|txs| - 1];
    BlockOutputs(ids, txs[..|txs| - 1], height) + OutputsOf(ids(tx), tx, height)
  }

  lemma {:induction false} SpendInputsSpent(s: Coins, w: Pending, ins: seq<TxInput>)
    ensures var r := SpendInputs(s, w, ins);
            r.Some? ==> r.value.spent == w.spent + InputSet(ins) && r.value.added == w.added
  {
    if ins != [] { SpendInputsSpent(s, w, ins[..|ins| - 1]); }
  }

  lemma {:induction false} ApplyTxsTotals(ids: TxIds, s: Coins, txs: seq<Transaction>, height: nat)
    ensures var r := ApplyTxs(ids, s, txs, height);
            r.Some? ==> r.value.spent == SpentSet(txs) && r.value.added == BlockOutputs(ids, txs, height)
  {
    if txs != [] {
      var init := txs[..|txs| - 1];
      ApplyTxsTotals(ids, s, init, height);
      var r := ApplyTxs(ids, s, init, height);
      if r.Some? { SpendInputsSpent(s, r.value, txs[|txs| - 1].inputs); }
    }
  }

  /** Whatever order the transactions come in, a successful connect removes what they spend and adds what is left. */
  lemma {:induction false} ConnectClosedForm(ids: TxIds, s: Coins, b: Block, height: nat)
    requires Connect(ids, s, b, height).Some?
    ensures var spent := SpentSet(b.transactions);
            Connect(ids, s, b, height).value.coins ==
            (s - spent) + (BlockOutputs(ids, b.transactions, height) - spent)
  {
    ApplyTxsTotals(ids, s, b.transactions, height);
  }

  lemma {:induction false} BlockOutputKeys(ids: TxIds, txs: seq<Transaction>, height: nat)
    ensures BlockOutputs(ids, txs, height).Keys == OutputKeys(ids, txs)
  {
    if txs != [] {
      var tx := txs[|txs| - 1];
      BlockOutputKeys(ids, txs[..|txs| - 1], height);
      FirstOutputsAre(ids(tx), tx, height, |tx.outputs|);
      FirstOutputsAre(ids(tx), tx, 0, |tx.outputs|);
    }
  }

  /** The entry an output becomes: its value and script, the height of its block, and whether a coinbase made it. */
  function CoinOf(out: TxOutput, height: nat, minted: bool): Entry {
    Entry(out.value, out.pkScript, height, minted)
  }

  /** What the list creates for one output. */
  lemma {:induction false} CreatedEntry(ids: TxIds, txs: seq<Transaction>, height: nat, t: nat, o: nat)
    requires DistinctIds(ids, txs) && t < |txs| && o < |txs[t].outputs|
    ensures var op := OutPoint(ids(txs[t]), o); var m := BlockOutputs(ids, txs, height);
            op in m && m[op] == CoinOf(txs[t].outputs[o], height, IsCoinbase(txs[t]))
  {
    var n, op := |txs| - 1, OutPoint(ids(txs[t]), o);
    FirstOutputsAre(ids(txs[n]), txs[n], height, |txs[n].outputs|);
    if t < n {
      CreatedEntry(ids, txs[..n], height, t, o);
      assert ids(txs[t]) != ids(txs[n]);
    }
  }

  /** After a block every output it did not spend itself is a coin with its own value, script, height and coinbase flag. */
  lemma {:induction false} CreatedCoin(ids: TxIds, s: Coins, b: Block, height: nat, t: nat, o: nat)
    requires DistinctIds(ids, b.transactions) && Connect(ids, s, b, height).Some?
    requires t < |b.transactions| && o < |b.transactions[t].outputs|
    ensures var tx := b.transactions[t];
            var op, after := OutPoint(ids(tx), o), Connect(ids, s, b, height).value.coins;
            && (op in after <==> op !in SpentSet(b.transactions))
            && (op in after ==> after[op].value == tx.outputs[o].value && after[op].pkScript == tx.outputs[o].pkScript
                                && after[op].height == height && (after[op].isCoinbase <==> IsCoinbase(tx)))
  {
    hide Connect, IsCoinbase, SpentSet, BlockOutputs;
    ConnectClosedForm(ids, s, b, height);
    CreatedEntry(ids, b.transactions, height, t, o);
  }

  lemma {:induction false} NothingExtraIff(s: Coins, w: Pending)
    requires CleanPending(s, w)
    ensures s + SpentWhilePending(w) == s <==> w.spent <= s.Keys
  {
    var extra := SpentWhilePending(w);
    if w.spent <= s.Keys {
      assert s + extra == s;
    } else {
      var op :| op in w.spent && op !in s;
      assert op in s + extra;
    }
  }

  /** Disconnect inverts connect exactly when the block only spends what was there before it. */
  lemma {:induction false} DisconnectInvertsIff(ids: TxIds, s: Coins, b: Block, height: nat)
    requires DistinctIds(ids, b.transactions) && FreshOutputs(ids, s, b.transactions)
    requires Connect(ids, s, b, height).Some?
    ensures var c := Connect(ids, s, b, height).value;
            Disconnect(ids, c.coins, b, c.undo) == s <==> SpentSet(b.transactions) <= s.Keys
  {
    DisconnectAfterConnect(ids, s, b, height);
    ApplyTxsClean(ids, s, b.transactions, height);
    ApplyTxsTotals(ids, s, b.transactions, height);
    NothingExtraIff(s, ApplyTxs(ids, s, b.transactions, height).value);
  }

  ghost predicate DistinctOps(ins: seq<TxInput>) {
    forall i, j :: 0 <= i < j < |ins| ==> ins[i].previousOutPoint != ins[j].previousOutPoint
  }

  lemma {:induction false} InputSetMember(ins: seq<TxInput>, op: OutPoint) returns (i: nat)
    requires op in InputSet(ins)
    ensures i < |ins| && ins[i].previousOutPoint == op
  {
    var n := |ins| - 1;
    if op == ins[n].previousOutPoint { i := n; } else { i := InputSetMember(ins[..n], op); }
  }

  lemma {:induction false} SpendInputsSucceeds(s: Coins, w: Pending, ins: seq<TxInput>)
    requires DistinctOps(ins) && InputSet(ins) <= s.Keys && InputSet(ins) !! w.spent
    ensures SpendInputs(s, w, ins).Some?
  {
    if ins != [] {
      var n := |ins| - 1;
      SpendInputsSucceeds(s, w, ins[..n]);
      SpendInputsSpent(s, w, ins[..n]);
      var op := ins[n].previousOutPoint;
      if op in InputSet(ins[..n]) { var i := InputSetMember(ins[..n], op); }
    }
  }

  /** No transaction of the list repeats an outpoint, its own or an earlier one's. */
  ghost predicate NoDoubleSpend(txs: seq<Transaction>) {
    txs != [] ==>
      var tx := txs[|txs| - 1];
      && NoDoubleSpend(txs[..|txs| - 1])
      && (!IsCoinbase(tx) ==> DistinctOps(tx.inputs) && InputSet(tx.inputs) !! SpentSet(txs[..|txs| - 1]))
  }

  lemma {:induction false} ApplyTxsSucceeds(ids: TxIds, s: Coins, txs: seq<Transaction>, height: nat)
    requires NoDoubleSpend(txs) && SpentSet(txs) <= s.Keys
    ensures ApplyTxs(ids, s, txs, height).Some?
  {
    if txs != [] {
      var n := |txs| - 1;
      ApplyTxsSucceeds(ids, s, txs[..n], height);
      ApplyTxsTotals(ids, s, txs[..n], height);
      if !IsCoinbase(txs[n]) {
        SpendInputsSucceeds(s, ApplyTxs(ids, s, txs[..n], height).value, txs[n].inputs);
      }
    }
  }
}
