/** Canonical encodings (internal/types/transaction.go, internal/types/block.go). */
module Codec {
  import opened Types
  import opened Arith

  /** What reading from a byte stream gives: a value and the bytes not consumed, or an error. */
  datatype Parsed<+T> = Bad | Ok(value: T, rest: Bytes)

  // ------------------------------------------------------------------- fixed-width integers

  function LE(v: nat, n: nat): (r: Bytes)
    ensures |r| == n
  {
    if n == 0 then [] else [v % 256] + LE(v / 256, n - 1)
  }

  function FromLE(bs: Bytes): (v: nat)
    ensures v < Pow256(|bs|)
  {
    if bs == [] then 0 else bs[0] + 256 * FromLE(bs[1..])
  }

  lemma {:induction false} FromLEInvertsLE(v: nat, n: nat)
    requires v < Pow256(n)
    ensures FromLE(LE(v, n)) == v
  {
    if n > 0 {
      FromLEInvertsLE(v / 256, n - 1);
      assert LE(v, n)[1..] == LE(v / 256, n - 1);
    }
  }

  /** What does not fit in the bytes is lost. */
  lemma {:induction false} FromLEOfLE(v: nat, n: nat)
    ensures FromLE(LE(v, n)) == v % Pow256(n)
  {
    if n > 0 {
      FromLEOfLE(v / 256, n - 1);
      assert LE(v, n)[1..] == LE(v / 256, n - 1);
      ModStep(v, Pow256(n - 1));
    }
  }

  lemma {:induction false} ModStep(v: nat, p: nat)
    requires p > 0
    ensures v % 256 + 256 * (v / 256 % p) == v % (256 * p)
  {
    var q, r := v / 256 / p, v / 256 % p;
    assert v / 256 == p * q + r;
    assert v == 256 * (p * q + r) + v % 256;
    MulAssoc(256, p, q);
    DivUnique(v, 256 * p, q, 256 * r + v % 256);
    assert v == (256 * p) * (v / (256 * p)) + v % (256 * p);
  }

  lemma {:induction false} LEInvertsFromLE(bs: Bytes)
    ensures LE(FromLE(bs), |bs|) == bs
  {
    if bs != [] {
      LEInvertsFromLE(bs[1..]);
      LowByte(bs[0], FromLE(bs[1..]));
      assert bs == [bs[0]] + bs[1..];
    }
  }

  lemma {:induction false} LowByte(b: u8, v: nat)
    ensures (b + 256 * v) % 256 == b && (b + 256 * v) / 256 == v
  {
  }

  lemma {:induction false} FromLEAppend(bs: Bytes, b: u8)
    ensures FromLE(bs + [b]) == FromLE(bs) + Pow256(|bs|) * b
  {
    if bs == [] {
      assert ([] + [b])[1..] == [];
    } else {
      assert (bs + [b])[1..] == bs[1..] + [b];
      FromLEAppend(bs[1..], b);
      MulAssoc(256, Pow256(|bs| - 1), b);
    }
  }

  lemma {:induction false} Widths()
    ensures Pow256(2) == 0x1_0000 && Pow256(4) == TWO32 && Pow256(8) == TWO64
  {
    assert Pow256(1) == 256;
    assert Pow256(3) == 0x100_0000;
    assert Pow256(4) == TWO32;
    assert Pow256(6) == 256 * (256 * Pow256(4));
  }

  lemma {:induction false} Join2(a: Bytes, b: Bytes, rest: Bytes)
    ensures a + (b + rest) == (a + b) + rest
  {
  }

  lemma {:induction false} Join4(a: Bytes, b: Bytes, c: Bytes, d: Bytes, rest: Bytes)
    ensures a + (b + (c + (d + rest))) == (a + (b + (c + d))) + rest
  {
  }

  function Take(n: nat, bs: Bytes): Parsed<Bytes> {
    if |bs| < n then Bad else Ok(bs[..n], bs[n..])
  }

  function ReadInt(n: nat, bs: Bytes): Parsed<nat> {
    if |bs| < n then Bad else Ok(FromLE(bs[..n]), bs[n..])
  }

  lemma {:induction false} ReadIntRoundTrip(v: nat, n: nat, rest: Bytes)
    requires v < Pow256(n)
    ensures ReadInt(n, LE(v, n) + rest) == Ok(v, rest)
  {
    FromLEInvertsLE(v, n);
    assert (LE(v, n) + rest)[..n] == LE(v, n);
    assert (LE(v, n) + rest)[n..] == rest;
  }

  lemma {:induction false} ReadIntCanonical(n: nat, bs: Bytes)
    ensures ReadInt(n, bs).Ok? ==>
              bs == LE(ReadInt(n, bs).value, n) + ReadInt(n, bs).rest && ReadInt(n, bs).value < Pow256(n)
  {
    if |bs| >= n {
      var front, back := bs[..n], bs[n..];
      LEInvertsFromLE(front);
      assert LE(FromLE(front), n) == front;
      assert bs == front + back;
    }
  }

  lemma {:induction false} TakeRoundTrip(xs: Bytes, rest: Bytes)
    ensures Take(|xs|, xs + rest) == Ok(xs, rest)
  {
    assert (xs + rest)[..|xs|] == xs;
    assert (xs + rest)[|xs|..] == rest;
  }

  lemma {:induction false} TakeCanonical(n: nat, bs: Bytes)
    ensures Take(n, bs).Ok? ==> bs == Take(n, bs).value + Take(n, bs).rest && |Take(n, bs).value| == n
  {
  }

  // ---------------------------------------------------------------------------- varints

  function PutVarInt(v: u64): Bytes {
    if v < 0xFD then [v]
    else if v <= 0xFFFF then [0xFD] + LE(v, 2)
    else if v <= 0xFFFF_FFFF then [0xFE] + LE(v, 4)
    else [0xFF] + LE(v, 8)
  }

  function VarIntSize(v: u64): nat {
    if v < 0xFD then 1 else if v <= 0xFFFF then 3 else if v <= 0xFFFF_FFFF then 5 else 9
  }

  /** Reads a varint and refuses an encoding longer than needed. */
  function ReadVarInt(bs: Bytes): (r: Parsed<u64>)
  {
    Widths();
    if bs == [] then Bad
    else if bs[0] == 0xFD then AtLeast(0xFD, ReadInt(2, bs[1..]))
    else if bs[0] == 0xFE then AtLeast(0x1_0000, ReadInt(4, bs[1..]))
    else if bs[0] == 0xFF then AtLeast(TWO32, ReadInt(8, bs[1..]))
    else Ok(bs[0], bs[1..])
  }

  function AtLeast(min: nat, r: Parsed<nat>): Parsed<u64>
    requires r.Ok? ==> r.value < TWO64
  {
    if r.Bad? || r.value < min then Bad else Ok(r.value, r.rest)
  }

  lemma {:induction false} VarIntRoundTrip(v: u64, rest: Bytes)
    ensures ReadVarInt(PutVarInt(v) + rest) == Ok(v, rest)
    ensures |PutVarInt(v)| == VarIntSize(v)
  {
    hide LE, FromLE, Pow256;
    Widths();
    var bs := PutVarInt(v) + rest;
    if v < 0xFD {
      assert bs[1..] == rest;
    } else {
      var n := if v <= 0xFFFF then 2 else if v <= 0xFFFF_FFFF then 4 else 8;
      assert bs[1..] == LE(v, n) + rest;
      ReadIntRoundTrip(v, n, rest);
    }
  }

  lemma {:induction false} VarIntCanonical(bs: Bytes)
    ensures var r := ReadVarInt(bs); r.Ok? ==> bs == PutVarInt(r.value) + r.rest
  {
    Widths();
    if ReadVarInt(bs).Ok? {
      assert bs == [bs[0]] + bs[1..];
      if bs[0] >= 0xFD {
        var n := if bs[0] == 0xFD then 2 else if bs[0] == 0xFE then 4 else 8;
        ReadIntCanonical(n, bs[1..]);
        var r := ReadInt(n, bs[1..]);
        Join2([bs[0]], LE(r.value, n), r.rest);
      }
    }
  }

  // ------------------------------------------------------------------------ repetition

  function EncMany<T>(enc: T -> Bytes, xs: seq<T>): Bytes {
    if xs == [] then [] else enc(xs[0]) + EncMany(enc, xs[1..])
  }

  function DecMany<T>(dec: Bytes -> Parsed<T>, n: nat, bs: Bytes): Parsed<seq<T>> {
    if n == 0 then Ok([], bs) else
    var first := dec(bs);
    if first.Bad? then Bad else
    var others := DecMany(dec, n - 1, first.rest);
    if others.Bad? then Bad else Ok([first.value] + others.value, others.rest)
  }

  /** Decoding the encoding of `x` gives `x` and whatever follows. */
  ghost predicate ReadsBack<T(!new)>(enc: T -> Bytes, dec: Bytes -> Parsed<T>, x: T) {
    forall r :: dec(enc(x) + r) == Ok(x, r)
  }

  lemma {:induction false} ManyRoundTrip<T(!new)>(enc: T -> Bytes, dec: Bytes -> Parsed<T>, xs: seq<T>, rest: Bytes)
    requires forall i :: 0 <= i < |xs| ==> ReadsBack(enc, dec, xs[i])
    ensures DecMany(dec, |xs|, EncMany(enc, xs) + rest) == Ok(xs, rest)
  {
    if xs != [] {
      ManyRoundTrip(enc, dec, xs[1..], rest);
      var tail := EncMany(enc, xs[1..]) + rest;
      assert EncMany(enc, xs) + rest == enc(xs[0]) + tail;
      assert ReadsBack(enc, dec, xs[0]);
      assert dec(enc(xs[0]) + tail) == Ok(xs[0], tail);
      assert [xs[0]] + xs[1..] == xs;
    } else {
      assert EncMany(enc, xs) + rest == rest;
    }
  }

  lemma {:induction false} ManyCanonical<T>(enc: T -> Bytes, dec: Bytes -> Parsed<T>, ok: T -> bool, n: nat, bs: Bytes)
    requires forall b :: dec(b).Ok? ==> b == enc(dec(b).value) + dec(b).rest && ok(dec(b).value)
    ensures var r := DecMany(dec, n, bs);
            r.Ok? ==> |r.value| == n && bs == EncMany(enc, r.value) + r.rest && forall x :: x in r.value ==> ok(x)
  {
    if n == 0 {
      assert bs == [] + bs;
    } else {
      var first := dec(bs);
      if first.Ok? {
        ManyCanonical(enc, dec, ok, n - 1, first.rest);
        var r := DecMany(dec, n, bs);
        if r.Ok? {
          var others := DecMany(dec, n - 1, first.rest);
          assert r.value[1..] == others.value;
          Join2(enc(first.value), EncMany(enc, others.value), others.rest);
        }
      }
    }
  }

  // ------------------------------------------------------------------- inputs and outputs

  const MAX_TX_INPUTS: nat := 10000
  const MAX_TX_OUTPUTS: nat := 10000
  const MAX_SCRIPT_SIZE: nat := 10000
  const MAX_BLOCK_TX_COUNT: nat := 50000

  /** A length-prefixed script. */
  function EncScript(script: Bytes): Bytes {
    PutVarInt(|script| % TWO64) + script
  }

  function DecScript(bs: Bytes): Parsed<Bytes> {
    var n := ReadVarInt(bs);
    if n.Bad? || n.value > MAX_SCRIPT_SIZE then Bad else Take(n.value, n.rest)
  }

  lemma {:induction false} ScriptRoundTrip(script: Bytes, rest: Bytes)
    requires |script| <= MAX_SCRIPT_SIZE
    ensures DecScript(EncScript(script) + rest) == Ok(script, rest)
  {
    hide PutVarInt, ReadVarInt;
    Join2(PutVarInt(|script|), script, rest);
    VarIntRoundTrip(|script|, script + rest);
    TakeRoundTrip(script, rest);
  }

  lemma {:induction false} ScriptCanonical(bs: Bytes)
    ensures var r := DecScript(bs);
            r.Ok? ==> bs == EncScript(r.value) + r.rest && |r.value| <= MAX_SCRIPT_SIZE
  {
    var r := DecScript(bs);
    if r.Ok? {
      VarIntCanonical(bs);
      var n := ReadVarInt(bs);
      TakeCanonical(n.value, n.rest);
      Join2(PutVarInt(n.value), r.value, r.rest);
    }
  }

  predicate InputFits(i: TxInput) {
    && |i.previousOutPoint.hash| == HASH_SIZE
    && i.previousOutPoint.index < TWO32
    && |i.signatureScript| <= MAX_SCRIPT_SIZE
  }

  function EncInput(i: TxInput): Bytes {
    i.previousOutPoint.hash + (LE(i.previousOutPoint.index, 4) + (EncScript(i.signatureScript) + LE(i.sequence, 4)))
  }

  function DecInput(bs: Bytes): Parsed<TxInput> {
    Widths();
    var hash := Take(HASH_SIZE, bs);
    if hash.Bad? then Bad else
    var index := ReadInt(4, hash.rest);
    if index.Bad? then Bad else
    var script := DecScript(index.rest);
    if script.Bad? then Bad else
    var sequence := ReadInt(4, script.rest);
    if sequence.Bad? then Bad else
    Ok(TxInput(OutPoint(hash.value, index.value), script.value, sequence.value), sequence.rest)
  }

  lemma {:induction false} InputRoundTrip(i: TxInput, rest: Bytes)
    requires InputFits(i)
    ensures DecInput(EncInput(i) + rest) == Ok(i, rest)
  {
    Widths();
    var r3 := LE(i.sequence, 4) + rest;
    var r2 := EncScript(i.signatureScript) + r3;
    var r1 := LE(i.previousOutPoint.index, 4) + r2;
    assert EncInput(i) + rest == i.previousOutPoint.hash + r1;
    TakeRoundTrip(i.previousOutPoint.hash, r1);
    ReadIntRoundTrip(i.previousOutPoint.index, 4, r2);
    ScriptRoundTrip(i.signatureScript, r3);
    ReadIntRoundTrip(i.sequence, 4, rest);
  }

  lemma {:induction false} InputCanonical(bs: Bytes)
    ensures var r := DecInput(bs); r.Ok? ==> bs == EncInput(r.value) + r.rest && InputFits(r.value)
  {
    Widths();
    var r := DecInput(bs);
    if r.Ok? {
      TakeCanonical(HASH_SIZE, bs);
      var hash := Take(HASH_SIZE, bs);
      ReadIntCanonical(4, hash.rest);
      var index := ReadInt(4, hash.rest);
      ScriptCanonical(index.rest);
      var script := DecScript(index.rest);
      ReadIntCanonical(4, script.rest);
      Join4(hash.value, LE(index.value, 4), EncScript(script.value), LE(r.value.sequence, 4), r.rest);
    }
  }

  predicate OutputFits(o: TxOutput) {
    |o.pkScript| <= MAX_SCRIPT_SIZE
  }

  function EncOutput(o: TxOutput): Bytes {
    LE(o.value, 8) + EncScript(o.pkScript)
  }

  function DecOutput(bs: Bytes): Parsed<TxOutput> {
    Widths();
    var value := ReadInt(8, bs);
    if value.Bad? then Bad else
    var script := DecScript(value.rest);
    if script.Bad? then Bad else Ok(TxOutput(value.value, script.value), script.rest)
  }

  lemma {:induction false} OutputRoundTrip(o: TxOutput, rest: Bytes)
    requires OutputFits(o)
    ensures DecOutput(EncOutput(o) + rest) == Ok(o, rest)
  {
    Widths();
    assert EncOutput(o) + rest == LE(o.value, 8) + (EncScript(o.pkScript) + rest);
    ReadIntRoundTrip(o.value, 8, EncScript(o.pkScript) + rest);
    ScriptRoundTrip(o.pkScript, rest);
  }

  lemma {:induction false} OutputCanonical(bs: Bytes)
    ensures var r := DecOutput(bs); r.Ok? ==> bs == EncOutput(r.value) + r.rest && OutputFits(r.value)
  {
    Widths();
    var r := DecOutput(bs);
    if r.Ok? {
      ReadIntCanonical(8, bs);
      ScriptCanonical(ReadInt(8, bs).rest);
      assert bs == EncOutput(r.value) + r.rest;
    }
  }

  // ---------------------------------------------------------------------- counted lists

  function EncList<T>(enc: T -> Bytes, xs: seq<T>): Bytes {
    PutVarInt(|xs| % TWO64) + EncMany(enc, xs)
  }

  function DecList<T>(dec: Bytes -> Parsed<T>, max: nat, bs: Bytes): Parsed<seq<T>> {
    var n := ReadVarInt(bs);
    if n.Bad? || n.value > max then Bad else DecMany(dec, n.value, n.rest)
  }

  lemma {:induction false} ListRoundTrip<T(!new)>(enc: T -> Bytes, dec: Bytes -> Parsed<T>, max: nat, xs: seq<T>, rest: Bytes)
    requires |xs| <= max < TWO64
    requires forall i :: 0 <= i < |xs| ==> ReadsBack(enc, dec, xs[i])
    ensures DecList(dec, max, EncList(enc, xs) + rest) == Ok(xs, rest)
  {
    hide PutVarInt, ReadVarInt, EncMany, DecMany, ReadsBack;
    Join2(PutVarInt(|xs|), EncMany(enc, xs), rest);
    VarIntRoundTrip(|xs|, EncMany(enc, xs) + rest);
    ManyRoundTrip(enc, dec, xs, rest);
  }

  lemma {:induction false} ListCanonical<T>(enc: T -> Bytes, dec: Bytes -> Parsed<T>, ok: T -> bool, max: nat, bs: Bytes)
    requires forall b :: dec(b).Ok? ==> b == enc(dec(b).value) + dec(b).rest && ok(dec(b).value)
    ensures var r := DecList(dec, max, bs);
            r.Ok? ==> bs == EncList(enc, r.value) + r.rest && |r.value| <= max && forall x :: x in r.value ==> ok(x)
  {
    var r := DecList(dec, max, bs);
    if r.Ok? {
      VarIntCanonical(bs);
      var n := ReadVarInt(bs);
      ManyCanonical(enc, dec, ok, n.value, n.rest);
      Join2(PutVarInt(n.value), EncMany(enc, r.value), r.rest);
    }
  }

  // ------------------------------------------------------------------------ transactions

  predicate TxFits(tx: Transaction) {
    && |tx.inputs| <= MAX_TX_INPUTS && |tx.outputs| <= MAX_TX_OUTPUTS
    && (forall i :: 0 <= i < |tx.inputs| ==> InputFits(tx.inputs[i]))
    && (forall i :: 0 <= i < |tx.outputs| ==> OutputFits(tx.outputs[i]))
  }

  function EncTx(tx: Transaction): Bytes {
    LE(tx.version, 4) + (EncList(EncInput, tx.inputs) + (EncList(EncOutput, tx.outputs) + LE(tx.lockTime, 4)))
  }

  function DecTx(bs: Bytes): Parsed<Transaction> {
    Widths();
    var version := ReadInt(4, bs);
    if version.Bad? then Bad else
    var inputs := DecList(DecInput, MAX_TX_INPUTS, version.rest);
    if inputs.Bad? then Bad else
    var outputs := DecList(DecOutput, MAX_TX_OUTPUTS, inputs.rest);
    if outputs.Bad? then Bad else
    var lockTime := ReadInt(4, outputs.rest);
    if lockTime.Bad? then Bad else
    Ok(Transaction(version.value, inputs.value, outputs.value, lockTime.value), lockTime.rest)
  }

  lemma {:induction false} InputReadsBack(i: TxInput)
    requires InputFits(i)
    ensures ReadsBack(EncInput, DecInput, i)
  {
    hide EncInput, DecInput, InputFits;
    forall r ensures DecInput(EncInput(i) + r) == Ok(i, r) { InputRoundTrip(i, r); }
  }

  lemma {:induction false} OutputReadsBack(o: TxOutput)
    requires OutputFits(o)
    ensures ReadsBack(EncOutput, DecOutput, o)
  {
    hide EncOutput, DecOutput, OutputFits;
    forall r ensures DecOutput(EncOutput(o) + r) == Ok(o, r) { OutputRoundTrip(o, r); }
  }

  /** Reading a transaction back gives it and exactly the bytes that follow it. */
  lemma {:induction false} TxRoundTrip(tx: Transaction, rest: Bytes)
    requires TxFits(tx)
    ensures DecTx(EncTx(tx) + rest) == Ok(tx, rest)
  {
    hide LE, FromLE, Pow256, ReadInt, EncList, DecList;
    Widths();
    var r3 := LE(tx.lockTime, 4) + rest;
    var r2 := EncList(EncOutput, tx.outputs) + r3;
    var r1 := EncList(EncInput, tx.inputs) + r2;
    assert EncTx(tx) + rest == LE(tx.version, 4) + r1;
    ReadIntRoundTrip(tx.version, 4, r1);
    forall i | 0 <= i < |tx.inputs| ensures ReadsBack(EncInput, DecInput, tx.inputs[i]) { InputReadsBack(tx.inputs[i]); }
    ListRoundTrip(EncInput, DecInput, MAX_TX_INPUTS, tx.inputs, r2);
    forall i | 0 <= i < |tx.outputs| ensures ReadsBack(EncOutput, DecOutput, tx.outputs[i]) { OutputReadsBack(tx.outputs[i]); }
    ListRoundTrip(EncOutput, DecOutput, MAX_TX_OUTPUTS, tx.outputs, r3);
    ReadIntRoundTrip(tx.lockTime, 4, rest);
  }

  /** Whatever bytes decode to a transaction are its only encoding. */
  lemma {:induction false} TxCanonical(bs: Bytes)
    ensures var r := DecTx(bs); r.Ok? ==> bs == EncTx(r.value) + r.rest && TxFits(r.value)
  {
    Widths();
    var r := DecTx(bs);
    if r.Ok? {
      ReadIntCanonical(4, bs);
      var version := ReadInt(4, bs);
      forall b ensures DecInput(b).Ok? ==> b == EncInput(DecInput(b).value) + DecInput(b).rest && InputFits(DecInput(b).value) {
        InputCanonical(b);
      }
      ListCanonical(EncInput, DecInput, InputFits, MAX_TX_INPUTS, version.rest);
      var inputs := DecList(DecInput, MAX_TX_INPUTS, version.rest);
      forall b ensures DecOutput(b).Ok? ==> b == EncOutput(DecOutput(b).value) + DecOutput(b).rest && OutputFits(DecOutput(b).value) {
        OutputCanonical(b);
      }
      ListCanonical(EncOutput, DecOutput, OutputFits, MAX_TX_OUTPUTS, inputs.rest);
      var outputs := DecList(DecOutput, MAX_TX_OUTPUTS, inputs.rest);
      ReadIntCanonical(4, outputs.rest);
      Join4(LE(r.value.version, 4), EncList(EncInput, r.value.inputs), EncList(EncOutput, r.value.outputs),
            LE(r.value.lockTime, 4), r.rest);
    }
  }

  // ----------------------------------------------------------------------------- blocks

  predicate HeaderFits(h: Header) {
    |h.prevBlock| == HASH_SIZE && |h.merkleRoot| == HASH_SIZE
  }

  function EncHeader(h: Header): Bytes {
    LE(h.version, 4) + (h.prevBlock + (h.merkleRoot + (LE(h.timestamp, 4) + (LE(h.bits, 4) + LE(h.nonce, 4)))))
  }

  function DecHeader(bs: Bytes): Parsed<Header> {
    Widths();
    if |bs| < 80 then Bad else
    Ok(Header(FromLE(bs[0..4]), bs[4..36], bs[36..68], FromLE(bs[68..72]), FromLE(bs[72..76]), FromLE(bs[76..80])), bs[80..])
  }

  lemma {:induction false} HeaderRoundTrip(h: Header, rest: Bytes)
    requires HeaderFits(h)
    ensures |EncHeader(h)| == 80 && DecHeader(EncHeader(h) + rest) == Ok(h, rest)
  {
    Widths();
    var bs := EncHeader(h) + rest;
    assert bs[0..4] == LE(h.version, 4);
    assert bs[4..36] == h.prevBlock;
    assert bs[36..68] == h.merkleRoot;
    assert bs[68..72] == LE(h.timestamp, 4);
    assert bs[72..76] == LE(h.bits, 4);
    assert bs[76..80] == LE(h.nonce, 4);
    assert bs[80..] == rest;
    FromLEInvertsLE(h.version, 4);
    FromLEInvertsLE(h.timestamp, 4);
    FromLEInvertsLE(h.bits, 4);
    FromLEInvertsLE(h.nonce, 4);
  }

  lemma {:induction false} HeaderPieces(bs: Bytes)
    requires |bs| >= 80
    ensures bs == (bs[0..4] + (bs[4..36] + (bs[36..68] + (bs[68..72] + (bs[72..76] + bs[76..80]))))) + bs[80..]
  {
    assert bs[72..80] == bs[72..76] + bs[76..80];
    assert bs[68..80] == bs[68..72] + bs[72..80];
    assert bs[36..80] == bs[36..68] + bs[68..80];
    assert bs[4..80] == bs[4..36] + bs[36..80];
    assert bs[0..80] == bs[0..4] + bs[4..80];
  }

  lemma {:induction false} HeaderCanonical(bs: Bytes)
    ensures var r := DecHeader(bs); r.Ok? ==> bs == EncHeader(r.value) + r.rest && HeaderFits(r.value)
  {
    Widths();
    if |bs| >= 80 {
      LEInvertsFromLE(bs[0..4]);
      LEInvertsFromLE(bs[68..72]);
      LEInvertsFromLE(bs[72..76]);
      LEInvertsFromLE(bs[76..80]);
      HeaderPieces(bs);
    }
  }

  predicate BlockFits(b: Block) {
    && HeaderFits(b.header) && |b.transactions| <= MAX_BLOCK_TX_COUNT
    && (forall i :: 0 <= i < |b.transactions| ==> TxFits(b.transactions[i]))
  }

  function EncBlock(b: Block): Bytes {
    EncHeader(b.header) + EncList(EncTx, b.transactions)
  }

  function DecBlock(bs: Bytes): Parsed<Block> {
    var header := DecHeader(bs);
    if header.Bad? then Bad else
    var txs := DecList(DecTx, MAX_BLOCK_TX_COUNT, header.rest);
    if txs.Bad? then Bad else Ok(Block(header.value, txs.value), txs.rest)
  }

  lemma {:induction false} TxReadsBack(tx: Transaction)
    requires TxFits(tx)
    ensures ReadsBack(EncTx, DecTx, tx)
  {
    hide EncTx, DecTx, TxFits;
    forall r ensures DecTx(EncTx(tx) + r) == Ok(tx, r) { TxRoundTrip(tx, r); }
  }

  lemma {:induction false} BlockRoundTrip(b: Block, rest: Bytes)
    requires BlockFits(b)
    ensures DecBlock(EncBlock(b) + rest) == Ok(b, rest)
  {
    assert EncBlock(b) + rest == EncHeader(b.header) + (EncList(EncTx, b.transactions) + rest);
    HeaderRoundTrip(b.header, EncList(EncTx, b.transactions) + rest);
    forall i | 0 <= i < |b.transactions| ensures ReadsBack(EncTx, DecTx, b.transactions[i]) { TxReadsBack(b.transactions[i]); }
    ListRoundTrip(EncTx, DecTx, MAX_BLOCK_TX_COUNT, b.transactions, rest);
  }

  lemma {:induction false} BlockCanonical(bs: Bytes)
    ensures var r := DecBlock(bs); r.Ok? ==> bs == EncBlock(r.value) + r.rest && BlockFits(r.value)
  {
    var r := DecBlock(bs);
    if r.Ok? {
      HeaderCanonical(bs);
      var header := DecHeader(bs);
      forall b ensures DecTx(b).Ok? ==> b == EncTx(DecTx(b).value) + DecTx(b).rest && TxFits(DecTx(b).value) {
        TxCanonical(b);
      }
      ListCanonical(EncTx, DecTx, TxFits, MAX_BLOCK_TX_COUNT, header.rest);
      assert bs == EncBlock(r.value) + r.rest;
    }
  }

  // ----------------------------------------------------------------- where each field stands

  /** Byte `k` of a field of fixed width is the digit of 256^k. */
  lemma {:induction false} LEByte(v: nat, n: nat, k: nat)
    requires k < n
    ensures LE(v, n)[k] == v / Pow256(k) % 256
  {
    if k > 0 {
      LEByte(v / 256, n - 1, k - 1);
      DivDiv(v, 256, Pow256(k - 1));
    }
  }

  /** `bs` holds `v` in `n` bytes from position `at` on, least significant first. */
  ghost predicate FieldAt(bs: Bytes, at: nat, n: nat, v: nat) {
    at + n <= |bs| && forall k :: 0 <= k < n ==> bs[at + k] == v / Pow256(k) % 256
  }

  lemma {:induction false} FieldIs(bs: Bytes, at: nat, n: nat, v: nat)
    requires at + n <= |bs| && bs[at..at + n] == LE(v, n)
    ensures FieldAt(bs, at, n, v)
  {
    hide LE;
    forall k | 0 <= k < n ensures bs[at + k] == v / Pow256(k) % 256 {
      assert bs[at + k] == bs[at..at + n][k];
      LEByte(v, n, k);
    }
  }

  /** A header: version, parent hash, merkle root, time, bits and nonce, in this order. */
  lemma {:induction false} HeaderLayout(h: Header)
    requires HeaderFits(h)
    ensures var bs := EncHeader(h);
            && |bs| == 80 && FieldAt(bs, 0, 4, h.version) && bs[4..36] == h.prevBlock && bs[36..68] == h.merkleRoot
            && FieldAt(bs, 68, 4, h.timestamp) && FieldAt(bs, 72, 4, h.bits) && FieldAt(bs, 76, 4, h.nonce)
  {
    hide LE, FieldAt;
    var bs := EncHeader(h);
    FieldIs(bs, 0, 4, h.version);
    FieldIs(bs, 68, 4, h.timestamp);
    FieldIs(bs, 72, 4, h.bits);
    FieldIs(bs, 76, 4, h.nonce);
  }

  /** An input: outpoint hash, outpoint index, script with its length in front, sequence. */
  lemma {:induction false} InputLayout(i: TxInput)
    requires |i.previousOutPoint.hash| == HASH_SIZE
    ensures var bs, n := EncInput(i), |EncScript(i.signatureScript)|;
            && |bs| == 40 + n && bs[..32] == i.previousOutPoint.hash && FieldAt(bs, 32, 4, i.previousOutPoint.index)
            && bs[36..36 + n] == EncScript(i.signatureScript) && FieldAt(bs, 36 + n, 4, i.sequence)
  {
    hide LE, FieldAt, EncScript;
    var bs, n := EncInput(i), |EncScript(i.signatureScript)|;
    FieldIs(bs, 32, 4, i.previousOutPoint.index);
    FieldIs(bs, 36 + n, 4, i.sequence);
  }

  /** An output: value, script with its length in front. */
  lemma {:induction false} OutputLayout(o: TxOutput)
    ensures var bs := EncOutput(o); FieldAt(bs, 0, 8, o.value) && bs[8..] == EncScript(o.pkScript)
  {
    hide LE, FieldAt, EncScript;
    FieldIs(EncOutput(o), 0, 8, o.value);
  }

  /** A transaction: version, the inputs and the outputs each behind their count, lock time. */
  lemma {:induction false} TxLayout(tx: Transaction)
    ensures var bs, ins, outs := EncTx(tx), EncList(EncInput, tx.inputs), EncList(EncOutput, tx.outputs);
            && |bs| == 8 + |ins| + |outs| && FieldAt(bs, 0, 4, tx.version) && bs[4..4 + |ins|] == ins
            && bs[4 + |ins|..4 + |ins| + |outs|] == outs && FieldAt(bs, 4 + |ins| + |outs|, 4, tx.lockTime)
  {
    hide LE, FieldAt, EncList;
    var bs, ins, outs := EncTx(tx), EncList(EncInput, tx.inputs), EncList(EncOutput, tx.outputs);
    FieldIs(bs, 0, 4, tx.version);
    FieldIs(bs, 4 + |ins| + |outs|, 4, tx.lockTime);
  }

  /** A varint: one byte below 253, else a marker and two, four or eight bytes, whichever is the first to hold the value. */
  lemma {:induction false} VarIntLayout(v: u64)
    ensures var bs := PutVarInt(v);
            && (v < 253 <==> bs == [v])
            && (253 <= v < 65536 ==> |bs| == 3 && bs[0] == 253 && FieldAt(bs, 1, 2, v))
            && (65536 <= v < TWO32 ==> |bs| == 5 && bs[0] == 254 && FieldAt(bs, 1, 4, v))
            && (TWO32 <= v ==> |bs| == 9 && bs[0] == 255 && FieldAt(bs, 1, 8, v))
  {
    hide LE, FieldAt;
    var bs := PutVarInt(v);
    if 253 <= v < 65536 { FieldIs(bs, 1, 2, v); }
    if 65536 <= v < TWO32 { FieldIs(bs, 1, 4, v); }
    if TWO32 <= v { FieldIs(bs, 1, 8, v); }
  }

  lemma {:induction false} LEOnes(v: u32)
    ensures LE(v, 4) == [255, 255, 255, 255] <==> v == 0xFFFF_FFFF
  {
    Widths();
    var ones: Bytes := [255, 255, 255, 255];
    assert ones[1..] == [255, 255, 255] && ones[1..][1..] == [255, 255] && ones[1..][1..][1..] == [255] && ones[1..][1..][1..][1..] == [];
    assert FromLE(ones) == 0xFFFF_FFFF;
    FromLEInvertsLE(v, 4);
    LEInvertsFromLE(ones);
  }

  /** On the wire a coinbase is the transaction of one input whose outpoint is 32 zero bytes and four bytes 255. */
  lemma {:induction false} CoinbaseOnWire(tx: Transaction)
    requires |tx.inputs| == 1 && InputFits(tx.inputs[0])
    ensures IsCoinbase(tx) <==> EncInput(tx.inputs[0])[..36] == seq(32, _ => 0) + [255, 255, 255, 255]
  {
    hide LE, EncScript;
    var op, bs := tx.inputs[0].previousOutPoint, EncInput(tx.inputs[0]);
    LEOnes(op.index);
    assert bs[..36] == op.hash + LE(op.index, 4);
    assert bs[..36][..32] == op.hash && bs[..36][32..] == LE(op.index, 4);
    var zeros: Bytes := seq(32, _ => 0);
    assert (zeros + [255, 255, 255, 255])[..32] == zeros && (zeros + [255, 255, 255, 255])[32..] == [255, 255, 255, 255];
    assert ZERO_HASH == zeros;
  }
}
