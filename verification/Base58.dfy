/** Base58 and Base58Check (internal/crypto/base58.go). */
module Base58 {
  import opened Types
  import opened Arith

  // ------------------------------------------------------- digits, most significant first

  type Digits = seq<nat>

  ghost predicate DigitsOf(ds: Digits, radix: nat) {
    forall i :: 0 <= i < |ds| ==> ds[i] < radix
  }

  function Value(ds: Digits, radix: nat): nat {
    if ds == [] then 0 else Value(ds[..|ds| - 1], radix) * radix + ds[|ds| - 1]
  }

  /** The digits of a number without leading zeros; none for zero. */
  function Minimal(v: nat, radix: nat): Digits
    requires radix > 1
  {
    if v == 0 then [] else
    DivShrinks(v, radix);
    Minimal(v / radix, radix) + [v % radix]
  }

  lemma {:induction false} DivShrinks(v: nat, d: nat)
    requires v > 0 && d > 1
    ensures v / d < v
  {
    var q, r := v / d, v % d;
    assert v == d * q + r;
    if q >= v {
      MulMono(q, 2, d);
    }
  }

  function LeadingZeros(ds: Digits): nat {
    if ds == [] || ds[0] != 0 then 0 else 1 + LeadingZeros(ds[1..])
  }

  function Zeros(n: nat): (r: Digits)
    ensures |r| == n && forall i :: 0 <= i < n ==> r[i] == 0
  {
    seq(n, _ => 0)
  }

  /** The same number in another radix, with as many leading zeros as before. */
  function Convert(ds: Digits, radix: nat, to: nat): Digits
    requires to > 1
  {
    Zeros(LeadingZeros(ds)) + Minimal(Value(ds, radix), to)
  }

  lemma {:induction false} MinimalDigits(v: nat, radix: nat)
    requires radix > 1
    ensures DigitsOf(Minimal(v, radix), radix) && Value(Minimal(v, radix), radix) == v
    ensures v > 0 ==> Minimal(v, radix) != [] && Minimal(v, radix)[0] != 0
  {
    if v > 0 {
      DivShrinks(v, radix);
      var q, r := v / radix, v % radix;
      MinimalDigits(q, radix);
      DivSplits(v, radix);
      ValueAppend(Minimal(q, radix), r, radix);
    }
  }

  lemma {:induction false} DivSplits(v: nat, d: nat)
    requires d > 0
    ensures v == (v / d) * d + v % d && v % d < d
  {
  }

  lemma {:induction false} ValueAppend(ds: Digits, d: nat, radix: nat)
    ensures Value(ds + [d], radix) == Value(ds, radix) * radix + d
  {
    assert (ds + [d])[..|ds|] == ds;
  }

  /** A digit string without a leading zero is the minimal one of its value. */
  lemma {:induction false} MinimalIsUnique(ds: Digits, radix: nat)
    requires radix > 1 && DigitsOf(ds, radix) && (ds != [] ==> ds[0] != 0)
    ensures Minimal(Value(ds, radix), radix) == ds && (ds != [] ==> Value(ds, radix) > 0)
  {
    if ds != [] {
      var init, last := ds[..|ds| - 1], ds[|ds| - 1];
      MinimalIsUnique(init, radix);
      var v := Value(ds, radix);
      assert v == radix * Value(init, radix) + last;
      DivUnique(v, radix, Value(init, radix), last);
      if init == [] { assert ds[0] == last; } else { MulMono(radix, 1, Value(init, radix)); }
    }
  }

  lemma {:induction false} ZerosAddNothing(n: nat, ds: Digits, radix: nat)
    ensures Value(Zeros(n) + ds, radix) == Value(ds, radix)
  {
    var all := Zeros(n) + ds;
    if ds != [] {
      assert all[..|all| - 1] == Zeros(n) + ds[..|ds| - 1];
      ZerosAddNothing(n, ds[..|ds| - 1], radix);
    } else if n > 0 {
      assert all[..|all| - 1] == Zeros(n - 1) + ds;
      ZerosAddNothing(n - 1, ds, radix);
    } else {
      assert all == ds;
    }
  }

  lemma {:induction false} CountsItsZeros(n: nat, ds: Digits)
    requires ds != [] ==> ds[0] != 0
    ensures LeadingZeros(Zeros(n) + ds) == n
  {
    if n > 0 {
      assert (Zeros(n) + ds)[1..] == Zeros(n - 1) + ds;
      CountsItsZeros(n - 1, ds);
    } else {
      assert Zeros(0) + ds == ds;
    }
  }

  lemma {:induction false} SplitZeros(ds: Digits)
    ensures LeadingZeros(ds) <= |ds|
    ensures var rest := ds[LeadingZeros(ds)..]; (rest != [] ==> rest[0] != 0) && ds == Zeros(LeadingZeros(ds)) + rest
  {
    if ds != [] && ds[0] == 0 {
      SplitZeros(ds[1..]);
      var n := LeadingZeros(ds[1..]);
      assert ds == [0] + ds[1..];
      assert Zeros(n + 1) == [0] + Zeros(n);
      assert ds[n + 1..] == ds[1..][n..];
    } else {
      assert Zeros(0) + ds == ds;
    }
  }

  /** Converting there and back is the identity, leading zeros and all. */
  lemma {:induction false} ConvertBack(ds: Digits, radix: nat, to: nat)
    requires radix > 1 && to > 1 && DigitsOf(ds, radix)
    ensures DigitsOf(Convert(ds, radix, to), to) && Convert(Convert(ds, radix, to), to, radix) == ds
  {
    var n, v := LeadingZeros(ds), Value(ds, radix);
    SplitZeros(ds);
    var rest := ds[n..];
    ZerosAddNothing(n, rest, radix);
    MinimalIsUnique(rest, radix);
    MinimalDigits(v, to);
    ZerosAddNothing(n, Minimal(v, to), to);
    CountsItsZeros(n, Minimal(v, to));
  }

  // ---------------------------------------------------------------------------- the alphabet

  const ALPHABET: string := "123456789" + "ABCDEFGH" + "JKLMN" + "PQRSTUVWXYZ" + "abcdefghijk" + "mnopqrstuvwxyz"

  /** The alphabet runs through digits and letters in order, without 0, I, O and l. */
  function Letter(d: nat): char
    requires d < 58
  {
    if d < 9 then '1' + (d as char)
    else if d < 17 then 'A' + ((d - 9) as char)
    else if d < 22 then 'J' + ((d - 17) as char)
    else if d < 33 then 'P' + ((d - 22) as char)
    else if d < 44 then 'a' + ((d - 33) as char)
    else 'm' + ((d - 44) as char)
  }

  lemma {:induction false} LetterAt(d: nat)
    requires d < 58
    ensures |ALPHABET| == 58 && ALPHABET[d] == Letter(d)
  {
  }

  lemma {:induction false} LettersAreDistinct(i: nat, j: nat)
    requires i < 58 && j < 58 && i != j
    ensures Letter(i) != Letter(j)
  {
  }

  predicate IsLetter(c: char) {
    exists d :: 0 <= d < 58 && Letter(d) == c
  }

  predicate Spelled(s: string) {
    forall i :: 0 <= i < |s| ==> IsLetter(s[i])
  }

  function Spell(ds: Digits): (s: string)
    requires DigitsOf(ds, 58)
    ensures |s| == |ds| && forall i :: 0 <= i < |ds| ==> s[i] == Letter(ds[i])
  {
    seq(|ds|, i requires 0 <= i < |ds| => Letter(ds[i]))
  }

  ghost function DigitsIn(s: string): (ds: Digits)
    requires Spelled(s)
    ensures DigitsOf(ds, 58) && Spell(ds) == s
  {
    seq(|s|, i requires 0 <= i < |s| => var d :| 0 <= d < 58 && Letter(d) == s[i]; d)
  }

  lemma {:induction false} SpellIsInjective(ds: Digits, es: Digits)
    requires DigitsOf(ds, 58) && DigitsOf(es, 58) && Spell(ds) == Spell(es)
    ensures ds == es
  {
    forall i | 0 <= i < |ds| ensures ds[i] == es[i] {
      assert Spell(ds)[i] == Letter(ds[i]) && Spell(es)[i] == Letter(es[i]);
      if ds[i] != es[i] { LettersAreDistinct(ds[i], es[i]); }
    }
  }

  // --------------------------------------------------------------------------- what it means

  lemma {:induction false} BytesAreDigits(b: Bytes)
    ensures DigitsOf(b, 256)
  {
  }

  ghost function Encoded(b: Bytes): string {
    BytesAreDigits(b);
    ConvertBack(b, 256, 58);
    Spell(Convert(b, 256, 58))
  }

  ghost function Decoded(s: string): Option<Digits> {
    if Spelled(s) then Some(Convert(DigitsIn(s), 58, 256)) else None
  }

  /** Decoding what was encoded gives the bytes back, for every byte string. */
  lemma {:induction false} DecodeInvertsEncode(b: Bytes)
    ensures Decoded(Encoded(b)) == Some(b)
  {
    BytesAreDigits(b);
    ConvertBack(b, 256, 58);
    var ds := Convert(b, 256, 58);
    SpelledBy(Encoded(b), ds);
  }

  /** Encoding what was decoded gives the string back, for every string over the alphabet. */
  lemma {:induction false} EncodeInvertsDecode(s: string)
    requires Spelled(s)
    ensures Decoded(s).Some? && DigitsOf(Decoded(s).value, 256)
    ensures var b: Bytes := Decoded(s).value; Encoded(b) == s
  {
    ConvertBack(DigitsIn(s), 58, 256);
  }

  // --------------------------------------------------------------------------------- the loops

  function Reversed(s: string): (r: string)
    ensures |r| == |s| && forall i :: 0 <= i < |s| ==> r[i] == s[|s| - 1 - i]
  {
    seq(|s|, i requires 0 <= i < |s| => s[|s| - 1 - i])
  }

  /** Swaps the ends towards the middle. */
  method ReverseInPlace(a: array<char>)
    modifies a
    ensures a[..] == Reversed(old(a[..]))
  {
    var i, j := 0, a.Length - 1;
    while i < j
      invariant 0 <= i <= a.Length && i + j == a.Length - 1
      invariant forall k :: 0 <= k < a.Length ==> a[k] == if i <= k <= j then old(a[k]) else old(a[a.Length - 1 - k])
    {
      a[i], a[j] := a[j], a[i];
      i, j := i + 1, j - 1;
    }
    assert a[..] == Reversed(old(a[..]));
  }

  method Encode(b: Bytes) returns (s: string)
    ensures s == Encoded(b)
  {
    hide Minimal, Value, LeadingZeros;
    BytesAreDigits(b);
    ConvertBack(b, 256, 58);
    ghost var all := Minimal(Value(b, 256), 58);
    MinimalDigits(Value(b, 256), 58);
    var result := SpellBackwards(Value(b, 256));
    var n := CountZeros(b);
    LetterAt(0);
    var padded := result + seq(n, _ => ALPHABET[0]);
    var a := new char[|padded|](i requires 0 <= i < |padded| => padded[i]);
    assert a[..] == padded;
    ReverseInPlace(a);
    s := a[..];
    PaddedReverse(result, n, all);
  }

  /** The letters of a number, least significant first. */
  method SpellBackwards(v: nat) returns (result: string)
    ensures DigitsOf(Minimal(v, 58), 58) && Reversed(result) == Spell(Minimal(v, 58))
  {
    hide Letter;
    MinimalDigits(v, 58);
    var x := v;
    result := [];
    assert Spell(Minimal(x, 58)) + Reversed([]) == Spell(Minimal(v, 58));
    while x > 0
      invariant DigitsOf(Minimal(x, 58), 58)
      invariant Spell(Minimal(x, 58)) + Reversed(result) == Spell(Minimal(v, 58))
    {
      DivShrinks(x, 58);
      MinimalDigits(x / 58, 58);
      LetterAt(x % 58);
      NextLetter(x, result);
      result := result + [ALPHABET[x % 58]];
      x := x / 58;
    }
    assert Spell(Minimal(0, 58)) == [];
    assert [] + Reversed(result) == Reversed(result);
  }

  lemma {:induction false} PaddedReverse(result: string, n: nat, all: Digits)
    requires DigitsOf(all, 58) && Reversed(result) == Spell(all)
    ensures DigitsOf(Zeros(n) + all, 58) && Reversed(result + seq(n, _ => Letter(0))) == Spell(Zeros(n) + all)
  {
    var left, right := Reversed(result + seq(n, _ => Letter(0))), Spell(Zeros(n) + all);
    assert |left| == |right|;
    forall i | 0 <= i < |left| ensures left[i] == right[i] {
      if i >= n { assert right[i] == Letter(all[i - n]) == Spell(all)[i - n] == Reversed(result)[i - n]; }
    }
  }

  lemma {:induction false} NextLetter(x: nat, result: string)
    requires x > 0 && DigitsOf(Minimal(x, 58), 58) && DigitsOf(Minimal(x / 58, 58), 58)
    ensures Spell(Minimal(x, 58)) + Reversed(result) == Spell(Minimal(x / 58, 58)) + Reversed(result + [Letter(x % 58)])
  {
    var c := Letter(x % 58);
    assert Reversed(result + [c]) == [c] + Reversed(result);
    assert Spell(Minimal(x, 58)) == Spell(Minimal(x / 58, 58)) + [c];
  }

  method CountZeros(b: Bytes) returns (n: nat)
    ensures n == LeadingZeros(b)
  {
    n := 0;
    while n < |b| && b[n] == 0
      invariant n <= |b| && LeadingZeros(b) == n + LeadingZeros(b[n..])
    {
      assert b[n..][1..] == b[n + 1..];
      n := n + 1;
    }
  }

  /** The position of a character, found by scanning. */
  method AlphabetIndex(c: char) returns (r: int)
    ensures -1 <= r < 58
    ensures if r < 0 then forall d :: 0 <= d < 58 ==> Letter(d) != c else Letter(r) == c
  {
    for i := 0 to 58
      invariant forall d :: 0 <= d < i ==> Letter(d) != c
    {
      LetterAt(i);
      if ALPHABET[i] == c { return i; }
    }
    return -1;
  }

  method Decode(s: string) returns (r: Option<Digits>)
    ensures r == Decoded(s)
  {
    hide Letter, Minimal, Value;
    var v;
    ghost var ds;
    v, ds := ReadNumber(s);
    if v.None? { return None; }
    SpelledBy(s, ds);
    var n := 0;
    while n < |s| && s[n] == ALPHABET[0]
      invariant n <= |s| && LeadingZeros(ds) == n + LeadingZeros(ds[n..])
    {
      FirstLetter(ds[n]);
      assert ds[n..][1..] == ds[n + 1..];
      n := n + 1;
    }
    if n < |s| { FirstLetter(ds[n]); }
    return Some(Zeros(n) + Minimal(v.value, 256));
  }

  lemma {:induction false} FirstLetter(d: nat)
    requires d < 58
    ensures |ALPHABET| == 58 && (Letter(d) == ALPHABET[0] <==> d == 0)
  {
    LetterAt(0);
    if d != 0 { LettersAreDistinct(d, 0); }
  }

  /** Accumulates the number digit by digit; a character outside the alphabet stops it. */
  method ReadNumber(s: string) returns (v: Option<nat>, ghost ds: Digits)
    ensures v.None? ==> !Spelled(s)
    ensures v.Some? ==> DigitsOf(ds, 58) && Spell(ds) == s && v.value == Value(ds, 58)
  {
    hide Letter;
    ds := [];
    var x := 0;
    for i := 0 to |s|
      invariant |ds| == i && DigitsOf(ds, 58) && Spell(ds) == s[..i] && x == Value(ds, 58)
    {
      var d := AlphabetIndex(s[i]);
      if d < 0 { return None, ds; }
      ValueAppend(ds, d, 58);
      x := x * 58 + d;
      ds := ds + [d];
      assert Spell(ds) == s[..i + 1];
    }
    assert s[..|s|] == s;
    return Some(x), ds;
  }

  lemma {:induction false} SpelledBy(s: string, ds: Digits)
    requires DigitsOf(ds, 58) && Spell(ds) == s
    ensures Spelled(s) && DigitsIn(s) == ds
  {
    forall i | 0 <= i < |s| ensures IsLetter(s[i]) {
      assert 0 <= ds[i] < 58 && Letter(ds[i]) == s[i];
    }
    SpellIsInjective(DigitsIn(s), ds);
  }

  // -------------------------------------------------------------------------- with a checksum

  type Checksum = Bytes -> Bytes

  ghost function CheckEncoded(sum: Checksum, version: u8, payload: Bytes): string {
    Encoded([version] + payload + sum([version] + payload))
  }

  predicate Checks(sum: Checksum, d: Digits) {
    |d| >= 5 && DigitBytes(d) && var b: Bytes := d; sum(b[..|b| - 4]) == b[|b| - 4..]
  }

  predicate DigitBytes(d: Digits) {
    forall i :: 0 <= i < |d| ==> d[i] < 256
  }

  method CheckDecode(sum: Checksum, s: string) returns (r: Option<(u8, Bytes)>)
    ensures r.Some? <==> Decoded(s).Some? && Checks(sum, Decoded(s).value)
    ensures r.Some? ==> var b: Bytes := Decoded(s).value; r.value == (b[0], b[1..|b| - 4])
  {
    var d := Decode(s);
    if d.None? { return None; }
    EncodeInvertsDecode(s);
    var b: Bytes := d.value;
    if |b| < 5 || sum(b[..|b| - 4]) != b[|b| - 4..] { return None; }
    return Some((b[0], b[1..|b| - 4]));
  }

  /** An address decodes to what it was made from, and is the only string that does. */
  lemma {:induction false} AddressIsCanonical(sum: Checksum, version: u8, payload: Bytes, s: string)
    requires |sum([version] + payload)| == 4
    ensures var d := Decoded(CheckEncoded(sum, version, payload));
            && d.Some? && Checks(sum, d.value)
            && var b: Bytes := d.value; b[0] == version && b[1..|b| - 4] == payload
    ensures Decoded(s).Some? && Checks(sum, Decoded(s).value) &&
            (var b: Bytes := Decoded(s).value; b[0] == version && b[1..|b| - 4] == payload) ==>
              s == CheckEncoded(sum, version, payload)
  {
    hide Decoded, Encoded;
    var body := [version] + payload;
    var full := body + sum(body);
    DecodeInvertsEncode(full);
    assert full[..|full| - 4] == body && full[|full| - 4..] == sum(body);
    if Decoded(s).Some? && Checks(sum, Decoded(s).value) {
      var b: Bytes := Decoded(s).value;
      if b[0] == version && b[1..|b| - 4] == payload {
        assert b[..|b| - 4] == body;
        assert b == b[..|b| - 4] + b[|b| - 4..];
        DecodedIsSpelled(s);
        EncodeInvertsDecode(s);
      }
    }
  }

  lemma {:induction false} DecodedIsSpelled(s: string)
    requires Decoded(s).Some?
    ensures Spelled(s)
  {
  }
}
