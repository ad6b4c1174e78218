/** Stored UTXO entries and undo data (the codecs of internal/utxo/utxo.go). */
module UndoCodec {
  import opened Types
  import opened Arith
  import opened Params
  import opened Codec
  import opened Wire
  import opened Utxo
  import opened TxValidation
  import opened BlockRules
  import opened History

  const MAX_INT: nat := 0x7FFF_FFFF_FFFF_FFFF

  // ------------------------------------------------------------------------------ entries

  function EncEntry(e: Entry): Bytes {
    LE(e.value, 8) + (LE(e.height, 4) + ([if e.isCoinbase then 1 else 0] + EncScript(e.pkScript)))
  }

  /** Bytes behind the script are ignored. */
  function DecEntry(data: Bytes): Option<Entry> {
    if |data| < 13 then None else
    Widths();
    var script := ReadVarInt(data[13..]);
    if script.Bad? || script.value > MAX_INT then None else
    var pk := Take(script.value, script.rest);
    if pk.Bad? then None else
    Some(Entry(FromLE(data[0..8]), pk.value, FromLE(data[8..12]), data[12] % 2 == 1))
  }

  /** What fits in the fields of the source: a 32-bit height, and a length that is an int. */
  ghost predicate EntryFits(e: Entry) {
    e.height < TWO32 && |EncEntry(e)| <= MAX_INT
  }

  lemma {:induction false} EntryRoundTrip(e: Entry)
    requires EntryFits(e)
    ensures DecEntry(EncEntry(e)) == Some(e)
  {
    hide LE, FromLE, Pow256, PutVarInt, ReadVarInt;
    Widths();
    var data := EncEntry(e);
    var script := EncScript(e.pkScript);
    assert |data| == 13 + |script|;
    assert data[0..8] == LE(e.value, 8);
    assert data[8..12] == LE(e.height, 4);
    assert data[13..] == script;
    FromLEInvertsLE(e.value, 8);
    FromLEInvertsLE(e.height, 4);
    VarIntRoundTrip(|e.pkScript|, e.pkScript);
    TakeRoundTrip(e.pkScript, []);
    assert e.pkScript + [] == e.pkScript;
  }

  // ---------------------------------------------------------------------------- undo data

  function EncSpent(so: SpentOutput): Bytes {
    so.outPoint.hash + (LE(so.outPoint.index, 4) + (PutVarInt(|EncEntry(so.entry)| % TWO64) + EncEntry(so.entry)))
  }

  function DecSpent(bs: Bytes): Parsed<SpentOutput> {
    if |bs| < 36 then Bad else
    var n := ReadVarInt(bs[36..]);
    if n.Bad? || n.value > MAX_INT then Bad else
    var body := Take(n.value, n.rest);
    if body.Bad? then Bad else
    var entry := DecEntry(body.value);
    if entry.None? then Bad else
    Ok(SpentOutput(OutPoint(bs[..32], FromLE(bs[32..36])), entry.value), body.rest)
  }

  ghost predicate SpentFits(so: SpentOutput) {
    |so.outPoint.hash| == HASH_SIZE && so.outPoint.index < TWO32 && EntryFits(so.entry)
  }

  lemma {:induction false} SpentRoundTrip(so: SpentOutput, rest: Bytes)
    requires SpentFits(so)
    ensures DecSpent(EncSpent(so) + rest) == Ok(so, rest)
  {
    hide EncEntry, DecEntry;
    Widths();
    var bs, body := EncSpent(so) + rest, EncEntry(so.entry);
    EntryFitsWhole(so.entry);
    assert bs[..32] == so.outPoint.hash;
    assert bs[32..36] == LE(so.outPoint.index, 4);
    assert bs[36..] == PutVarInt(|body|) + (body + rest);
    FromLEInvertsLE(so.outPoint.index, 4);
    VarIntRoundTrip(|body|, body + rest);
    TakeRoundTrip(body, rest);
    EntryRoundTrip(so.entry);
  }

  lemma {:induction false} EntryFitsWhole(e: Entry)
    requires EntryFits(e)
    ensures |EncEntry(e)| < TWO64
  {
  }

  /** The buffer of a block's undo list. */
  function EncUndo(undo: seq<SpentOutput>): Bytes {
    EncList(EncSpent, undo)
  }

  function DecUndo(data: Bytes): Option<seq<SpentOutput>> {
    if data == [] then Some([]) else
    var r := DecList(DecSpent, TWO64, data);
    if r.Bad? then None else Some(r.value)
  }

  /** The offset loop. */
  method DeserializeUndoData(data: Bytes) returns (r: Option<seq<SpentOutput>>)
    ensures r == DecUndo(data)
  {
    hide DecSpent, ReadVarInt, PutVarInt, VarIntSize;
    if |data| == 0 { return Some([]); }
    var count := ReadVarInt(data);
    if count.Bad? { return None; }
    var offset: nat := VarIntSize(count.value);
    CountConsumed(data);
    ghost var n := count.value;
    var undo: seq<SpentOutput> := [];
    ResumeFromNothing(DecMany(DecSpent, n, count.rest));
    for i := 0 to count.value
      invariant offset <= |data|
      invariant DecMany(DecSpent, n, count.rest) == Resume(undo, DecMany(DecSpent, n - i, data[offset..]))
    {
      ResumeStep(DecSpent, undo, n - i, data[offset..]);
      var so := DecSpent(data[offset..]);
      if so.Bad? { return None; }
      DecSpentConsumes(data, offset);
      offset := |data| - |so.rest|;
      undo := undo + [so.value];
    }
    assert undo + [] == undo;
    return Some(undo);
  }

  lemma {:induction false} CountConsumed(data: Bytes)
    ensures var r := ReadVarInt(data);
            r.Ok? ==> VarIntSize(r.value) <= |data| && data[VarIntSize(r.value)..] == r.rest
  {
    VarIntCanonical(data);
    var r := ReadVarInt(data);
    if r.Ok? { VarIntRoundTrip(r.value, r.rest); }
  }

  lemma {:induction false} DecSpentConsumes(data: Bytes, offset: nat)
    requires offset <= |data|
    ensures var r := DecSpent(data[offset..]); r.Ok? ==> |r.rest| <= |data| && data[|data| - |r.rest|..] == r.rest
  {
    hide DecEntry;
    var bs := data[offset..];
    if DecSpent(bs).Ok? {
      VarIntCanonical(bs[36..]);
      var n := ReadVarInt(bs[36..]);
      TakeCanonical(n.value, n.rest);
      SuffixOfSuffix(bs[36..], PutVarInt(n.value), n.rest);
      var r := DecSpent(bs);
      SuffixOfSuffix(n.rest, Take(n.value, n.rest).value, r.rest);
    }
  }

  lemma {:induction false} SuffixOfSuffix(bs: Bytes, front: Bytes, rest: Bytes)
    requires bs == front + rest
    ensures |rest| <= |bs| && bs[|bs| - |rest|..] == rest
  {
  }

  ghost predicate UndoFits(undo: seq<SpentOutput>) {
    |undo| < TWO64 && forall i :: 0 <= i < |undo| ==> SpentFits(undo[i])
  }

  /** Undo data comes back as it was written. */
  lemma {:induction false} UndoRoundTrip(undo: seq<SpentOutput>)
    requires UndoFits(undo)
    ensures DecUndo(EncUndo(undo)) == Some(undo)
  {
    hide EncSpent, DecSpent, SpentFits;
    forall i | 0 <= i < |undo| ensures ReadsBack(EncSpent, DecSpent, undo[i]) {
      forall r ensures DecSpent(EncSpent(undo[i]) + r) == Ok(undo[i], r) { SpentRoundTrip(undo[i], r); }
    }
    ListRoundTrip(EncSpent, DecSpent, |undo|, undo, []);
    assert EncUndo(undo) + [] == EncUndo(undo);
    VarIntRoundTrip(|undo|, []);
  }

  // ----------------------------------------------------------- what a block's undo data holds

  /** Every record is an entry of the set before the block. */
  ghost predicate UndoFrom(s: Coins, undo: seq<SpentOutput>) {
    forall i :: 0 <= i < |undo| ==> undo[i].outPoint in s && undo[i].entry == s[undo[i].outPoint]
  }

  lemma {:induction false} SpendInputsFrom(s: Coins, w: Pending, ins: seq<TxInput>)
    requires CleanPending(s, w) && UndoFrom(s, w.undo) && InputSet(ins) <= s.Keys
    ensures var r := SpendInputs(s, w, ins); r.Some? ==> UndoFrom(s, r.value.undo)
  {
    if ins != [] {
      var init := ins[..|ins| - 1];
      SpendInputsFrom(s, w, init);
      SpendInputsClean(s, w, init);
    }
  }

  lemma {:induction false} ApplyTxsFrom(ids: TxIds, s: Coins, txs: seq<Transaction>, height: nat)
    requires DistinctIds(ids, txs) && FreshOutputs(ids, s, txs) && SpentSet(txs) <= s.Keys
    ensures var r := ApplyTxs(ids, s, txs, height); r.Some? ==> UndoFrom(s, r.value.undo)
  {
    if txs != [] {
      var init, tx := txs[..|txs| - 1], txs[|txs| - 1];
      ApplyTxsFrom(ids, s, init, height);
      ApplyTxsClean(ids, s, init, height);
      var r := ApplyTxs(ids, s, init, height);
      if r.Some? && !IsCoinbase(tx) { SpendInputsFrom(s, r.value, tx.inputs); }
    }
  }

  ghost predicate CoinsFit(s: Coins) {
    forall op :: op in s ==> SpentFits(SpentOutput(op, s[op]))
  }

  /** Undo data read back from storage reverses an accepted block exactly. */
  lemma {:induction false} StoredUndoReverses(c: Crypto, p: ChainParams, s: Coins, height: nat, b: Block)
    requires b.transactions != [] && BlockInputsOk(c.verify, p, s, height, b) && CoinsFit(s)
    requires DistinctIds(c.txId, b.transactions) && FreshOutputs(c.txId, s, b.transactions)
    ensures Connect(c.txId, s, b, height).Some?
    ensures var r := Connect(c.txId, s, b, height).value;
            |r.undo| < TWO64 ==>
              && DecUndo(EncUndo(r.undo)) == Some(r.undo)
              && Disconnect(c.txId, r.coins, b, DecUndo(EncUndo(r.undo)).value) == s
  {
    hide SpentFits, EncUndo, DecUndo, BlockInputsOk, Disconnect, CleanPending;
    AcceptedBlockReverses(c.txId, c.verify, p, s, height, b);
    SpendsAreThere(c, p, s, height, b);
    ApplyTxsFrom(c.txId, s, b.transactions, height);
    var undo := Connect(c.txId, s, b, height).value.undo;
    assert forall i :: 0 <= i < |undo| ==> undo[i] == SpentOutput(undo[i].outPoint, s[undo[i].outPoint]);
    if |undo| < TWO64 { UndoRoundTrip(undo); }
  }

  // ----------------------------------------------------------------- where each field stands

  /** A stored entry: value, height, coinbase flag, script with its length in front. */
  lemma {:induction false} EntryLayout(e: Entry)
    ensures var bs := EncEntry(e);
            && FieldAt(bs, 0, 8, e.value) && FieldAt(bs, 8, 4, e.height) && bs[12] == (if e.isCoinbase then 1 else 0)
            && bs[13..] == EncScript(e.pkScript)
  {
    hide LE, FieldAt, EncScript;
    FieldIs(EncEntry(e), 0, 8, e.value);
    FieldIs(EncEntry(e), 8, 4, e.height);
  }

  /** An undo record: outpoint hash, outpoint index, the stored entry with its length in front. */
  lemma {:induction false} SpentLayout(so: SpentOutput)
    requires |so.outPoint.hash| == HASH_SIZE
    ensures var bs, entry := EncSpent(so), EncEntry(so.entry);
            && bs[..32] == so.outPoint.hash && FieldAt(bs, 32, 4, so.outPoint.index) && bs[36..] == PutVarInt(|entry| % TWO64) + entry
  {
    hide LE, FieldAt, EncEntry, PutVarInt;
    FieldIs(EncSpent(so), 32, 4, so.outPoint.index);
  }
}
