/** The hypotheses of the theorems can be met: a collision-free hashing, and mainnet on top of it. */
module Witness {
  import opened Types
  import opened Arith
  import opened Params
  import opened Codec
  import opened Merkle
  import opened Utxo
  import opened TxValidation
  import opened BlockRules
  import opened BlockTree
  import opened Network

  // ------------------------------------------------------------------- prefix-free encodings

  /** No encoding, with anything behind it, is another encoding with anything behind it. */
  ghost predicate PrefixFree<T(!new)>(enc: T -> Bytes) {
    forall x, y, r, s :: enc(x) + r == enc(y) + s ==> x == y && r == s
  }

  function Marked<T>(enc: T -> Bytes, xs: seq<T>): Bytes {
    if xs == [] then [0] else [1] + (enc(xs[0]) + Marked(enc, xs[1..]))
  }

  lemma {:induction false} MarkedPrefixFree<T(!new)>(enc: T -> Bytes, xs: seq<T>, ys: seq<T>, r: Bytes, s: Bytes)
    requires PrefixFree(enc) && Marked(enc, xs) + r == Marked(enc, ys) + s
    ensures xs == ys && r == s
  {
    var a, b := Marked(enc, xs) + r, Marked(enc, ys) + s;
    assert a[0] == b[0] && a[1..] == b[1..];
    if xs != [] {
      assert a[1..] == enc(xs[0]) + (Marked(enc, xs[1..]) + r);
      assert b[1..] == enc(ys[0]) + (Marked(enc, ys[1..]) + s);
      MarkedPrefixFree(enc, xs[1..], ys[1..], r, s);
      assert xs == [xs[0]] + xs[1..] && ys == [ys[0]] + ys[1..];
    } else {
      assert a[1..] == r && b[1..] == s;
    }
  }

  function OneByte(b: u8): Bytes {
    [b]
  }

  lemma {:induction false} OneBytePrefixFree()
    ensures PrefixFree(OneByte)
  {
    forall x, y, r, s | OneByte(x) + r == OneByte(y) + s ensures x == y && r == s {
      assert (OneByte(x) + r)[0] == x && (OneByte(x) + r)[1..] == r;
      assert (OneByte(y) + s)[0] == y && (OneByte(y) + s)[1..] == s;
    }
  }

  function Text(bs: Bytes): Bytes {
    Marked(OneByte, bs)
  }

  lemma {:induction false} TextPrefixFree(x: Bytes, y: Bytes, r: Bytes, s: Bytes)
    requires Text(x) + r == Text(y) + s
    ensures x == y && r == s
  {
    OneBytePrefixFree();
    MarkedPrefixFree(OneByte, x, y, r, s);
  }

  /** The bytes of a number, least significant first. */
  function Digits(n: nat): Bytes {
    if n == 0 then [] else [n % 256] + Digits(n / 256)
  }

  lemma {:induction false} DigitsRead(n: nat)
    ensures FromLE(Digits(n)) == n
  {
    if n > 0 {
      DigitsRead(n / 256);
      assert Digits(n)[1..] == Digits(n / 256);
    }
  }

  function Numeral(n: nat): Bytes {
    Text(Digits(n))
  }

  lemma {:induction false} NumeralPrefixFree(x: nat, y: nat, r: Bytes, s: Bytes)
    requires Numeral(x) + r == Numeral(y) + s
    ensures x == y && r == s
  {
    TextPrefixFree(Digits(x), Digits(y), r, s);
    DigitsRead(x);
    DigitsRead(y);
  }

  // ---------------------------------------------------------------- transactions and headers

  function InputCode(i: TxInput): Bytes {
    Text(i.previousOutPoint.hash) + (Numeral(i.previousOutPoint.index) + (Text(i.signatureScript) + Numeral(i.sequence)))
  }

  lemma {:induction false} InputPrefixFree()
    ensures PrefixFree(InputCode)
  {
    hide Text, Numeral;
    forall x: TxInput, y: TxInput, r, s | InputCode(x) + r == InputCode(y) + s ensures x == y && r == s {
      var x3, y3 := Numeral(x.sequence) + r, Numeral(y.sequence) + s;
      var x2, y2 := Text(x.signatureScript) + x3, Text(y.signatureScript) + y3;
      var x1, y1 := Numeral(x.previousOutPoint.index) + x2, Numeral(y.previousOutPoint.index) + y2;
      assert InputCode(x) + r == Text(x.previousOutPoint.hash) + x1;
      assert InputCode(y) + s == Text(y.previousOutPoint.hash) + y1;
      TextPrefixFree(x.previousOutPoint.hash, y.previousOutPoint.hash, x1, y1);
      NumeralPrefixFree(x.previousOutPoint.index, y.previousOutPoint.index, x2, y2);
      TextPrefixFree(x.signatureScript, y.signatureScript, x3, y3);
      NumeralPrefixFree(x.sequence, y.sequence, r, s);
    }
  }

  function OutputCode(o: TxOutput): Bytes {
    Numeral(o.value) + Text(o.pkScript)
  }

  lemma {:induction false} OutputPrefixFree()
    ensures PrefixFree(OutputCode)
  {
    hide Text, Numeral;
    forall x: TxOutput, y: TxOutput, r, s | OutputCode(x) + r == OutputCode(y) + s ensures x == y && r == s {
      assert OutputCode(x) + r == Numeral(x.value) + (Text(x.pkScript) + r);
      assert OutputCode(y) + s == Numeral(y.value) + (Text(y.pkScript) + s);
      NumeralPrefixFree(x.value, y.value, Text(x.pkScript) + r, Text(y.pkScript) + s);
      TextPrefixFree(x.pkScript, y.pkScript, r, s);
    }
  }

  /** A transaction id that starts with 1. */
  function TxCode(tx: Transaction): Hash {
    [1] + (Numeral(tx.version) + (Marked(InputCode, tx.inputs) + (Marked(OutputCode, tx.outputs) + Numeral(tx.lockTime))))
  }

  lemma {:induction false} TxCodeIsNotZero(tx: Transaction)
    ensures TxCode(tx) != ZERO_HASH
  {
    hide Numeral, Marked;
    assert TxCode(tx)[0] == 1;
  }

  lemma {:induction false} TxCodeInjective(x: Transaction, y: Transaction)
    requires TxCode(x) == TxCode(y)
    ensures x == y
  {
    hide Numeral, Marked;
    var x2, y2 := Marked(OutputCode, x.outputs) + Numeral(x.lockTime), Marked(OutputCode, y.outputs) + Numeral(y.lockTime);
    var x1, y1 := Marked(InputCode, x.inputs) + x2, Marked(InputCode, y.inputs) + y2;
    assert TxCode(x)[1..] == Numeral(x.version) + x1 && TxCode(y)[1..] == Numeral(y.version) + y1;
    NumeralPrefixFree(x.version, y.version, x1, y1);
    InputPrefixFree();
    MarkedPrefixFree(InputCode, x.inputs, y.inputs, x2, y2);
    OutputPrefixFree();
    MarkedPrefixFree(OutputCode, x.outputs, y.outputs, Numeral(x.lockTime), Numeral(y.lockTime));
    assert Numeral(x.lockTime) + [] == Numeral(y.lockTime) + [];
    NumeralPrefixFree(x.lockTime, y.lockTime, [], []);
  }

  function HeaderCode(h: Header): Bytes {
    [3] + (Numeral(h.version) + (Text(h.prevBlock) + (Text(h.merkleRoot) + (Numeral(h.timestamp) + (Numeral(h.bits) + Numeral(h.nonce))))))
  }

  lemma {:induction false} HeaderCodeInjective(x: Header, y: Header)
    requires HeaderCode(x) == HeaderCode(y)
    ensures x == y
  {
    hide Numeral, Text;
    var x4, y4 := Numeral(x.bits) + Numeral(x.nonce), Numeral(y.bits) + Numeral(y.nonce);
    var x3, y3 := Numeral(x.timestamp) + x4, Numeral(y.timestamp) + y4;
    var x2, y2 := Text(x.merkleRoot) + x3, Text(y.merkleRoot) + y3;
    var x1, y1 := Text(x.prevBlock) + x2, Text(y.prevBlock) + y2;
    assert HeaderCode(x)[1..] == Numeral(x.version) + x1 && HeaderCode(y)[1..] == Numeral(y.version) + y1;
    NumeralPrefixFree(x.version, y.version, x1, y1);
    TextPrefixFree(x.prevBlock, y.prevBlock, x2, y2);
    TextPrefixFree(x.merkleRoot, y.merkleRoot, x3, y3);
    NumeralPrefixFree(x.timestamp, y.timestamp, x4, y4);
    NumeralPrefixFree(x.bits, y.bits, Numeral(x.nonce), Numeral(y.nonce));
    assert Numeral(x.nonce) + [] == Numeral(y.nonce) + [];
    NumeralPrefixFree(x.nonce, y.nonce, [], []);
  }

  /** Byte strings as numbers, the length marked by a leading one. */
  function Number(bs: Bytes): nat {
    FromLE(bs + [1])
  }

  lemma {:induction false} NumberInjective(a: Bytes, b: Bytes)
    requires Number(a) == Number(b)
    ensures a == b
  {
    FromLEAppend(a, 1);
    FromLEAppend(b, 1);
    LongerIsLarger(a, b);
    LongerIsLarger(b, a);
    LEInvertsFromLE(a);
    LEInvertsFromLE(b);
  }

  lemma {:induction false} LongerIsLarger(a: Bytes, b: Bytes)
    ensures |a| < |b| ==> FromLE(a) + Pow256(|a|) < FromLE(b) + Pow256(|b|)
  {
    if |a| < |b| {
      Pow256Mono(|a| + 1, |b|);
      assert Pow256(|a| + 1) == 256 * Pow256(|a|);
    }
  }

  function Zeros(n: nat): (r: Bytes)
    ensures |r| == n
  {
    if n == 0 then [] else [0] + Zeros(n - 1)
  }

  lemma {:induction false} ZerosAreNothing(n: nat)
    ensures FromLE(Zeros(n)) == 0
  {
    if n > 0 {
      ZerosAreNothing(n - 1);
      assert Zeros(n)[1..] == Zeros(n - 1);
    }
  }

  /** A block hash worth 3 as a number, so that it meets every target; the header is in its length. */
  function HeaderHash(h: Header): Hash {
    [3] + Zeros(Number(HeaderCode(h)))
  }

  lemma {:induction false} HeaderHashIsSmall(h: Header)
    ensures FromLE(HeaderHash(h)) == 3 && HeaderHash(h)[0] == 3
  {
    ZerosAreNothing(Number(HeaderCode(h)));
    assert HeaderHash(h)[1..] == Zeros(Number(HeaderCode(h)));
  }

  lemma {:induction false} HeaderHashInjective(x: Header, y: Header)
    requires HeaderHash(x) == HeaderHash(y)
    ensures x == y
  {
    hide HeaderCode, Number, Zeros;
    assert |HeaderHash(x)| == 1 + Number(HeaderCode(x)) && |HeaderHash(y)| == 1 + Number(HeaderCode(y));
    NumberInjective(HeaderCode(x), HeaderCode(y));
    HeaderCodeInjective(x, y);
  }

  /** An inner node that starts with 2. */
  function NodeCode(a: Hash, b: Hash): Hash {
    [2] + (Text(a) + Text(b))
  }

  lemma {:induction false} NodeCodeInjective(a: Hash, b: Hash, c: Hash, d: Hash)
    requires NodeCode(a, b) == NodeCode(c, d)
    ensures a == c && b == d
  {
    hide Text;
    assert NodeCode(a, b)[1..] == Text(a) + Text(b) && NodeCode(c, d)[1..] == Text(c) + Text(d);
    TextPrefixFree(a, c, Text(b), Text(d));
    assert Text(b) + [] == Text(d) + [];
    TextPrefixFree(b, d, [], []);
  }

  // --------------------------------------------------------------------------- the witness

  function IdealCrypto(verify: ScriptCheck): Crypto {
    Crypto(TxCode, HeaderHash, NodeCode, verify)
  }

  /** Collision-free hashing exists, whatever the script check. */
  lemma {:induction false} IdealIsPossible(verify: ScriptCheck)
    ensures Ideal(IdealCrypto(verify)) && forall h :: FromLE(IdealCrypto(verify).blockId(h)) > 0
  {
    hide Numeral, Text, Marked;
    var c := IdealCrypto(verify);
    forall x, y | c.txId(x) == c.txId(y) ensures x == y { TxCodeInjective(x, y); }
    forall x, y | c.blockId(x) == c.blockId(y) ensures x == y { HeaderHashInjective(x, y); }
    forall a, b, d, e | c.node(a, b) == c.node(d, e) ensures a == d && b == e { NodeCodeInjective(a, b, d, e); }
    forall tx, a, b ensures c.node(a, b) != c.txId(tx) { assert NodeCode(a, b)[0] != TxCode(tx)[0]; }
    forall h ensures c.blockId(h) != ZERO_HASH && FromLE(c.blockId(h)) > 0 { HeaderHashIsSmall(h); }
  }

  /** With it, mainnet meets every standing hypothesis of the chain theorems. */
  lemma {:induction false} MainnetIsPossible(verify: ScriptCheck, p: ChainParams)
    requires IsMainnet(p)
    ensures EnvOk(IdealCrypto(verify), p)
  {
    IdealIsPossible(verify);
    MainnetMeetsHypotheses(IdealCrypto(verify), p);
  }
}
