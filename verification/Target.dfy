/** Compact difficulty bits, work and the proof-of-work test (internal/crypto/target.go, internal/types/hash.go). */
module Target {
  import opened Types
  import opened Arith
  import opened Codec

  // ------------------------------------------------------------------------ compact bits

  /** The magnitude a mantissa and an exponent stand for. */
  function Magnitude(m: nat, e: nat): nat {
    if e <= 3 then DivNonNegative(m, Pow256(3 - e)); m / Pow256(3 - e)
    else MulNonNegative(m, Pow256(e - 3)); m * Pow256(e - 3)
  }

  function CompactToBig(compact: u32): int {
    var mantissa := compact % 0x80_0000;
    var negative := (compact / 0x80_0000) % 2 == 1;
    var mag := Magnitude(mantissa, compact / 0x100_0000);
    if negative then 0 - mag else mag
  }

  function ByteLen(t: nat): nat {
    if t == 0 then 0 else 1 + ByteLen(t / 256)
  }

  /** The top three bytes of a positive number of `n` bytes. */
  function TopBytes(t: nat, n: nat): int {
    if n <= 3 then t * Pow256(3 - n) else t / Pow256(n - 3)
  }

  /** Mantissa and exponent: shifted up one byte when the sign bit would be set. */
  function Normalize(t: nat): (int, nat) {
    var n := ByteLen(t);
    var m := TopBytes(t, n);
    if (m / 0x80_0000) % 2 == 1 then (m / 256, n + 1) else (m, n)
  }

  function BigToCompact(target: int): u32 {
    if target == 0 then 0 else
    var (m, e) := Normalize(if target < 0 then -target else target);
    (m + e * 0x100_0000 + if target < 0 then 0x80_0000 else 0) % TWO32
  }

  /** The numbers whose exponent fits in its byte. */
  ghost predicate Encodable(t: int) {
    -0x80_0000 * Pow256(252) < t < 0x80_0000 * Pow256(252)
  }

  lemma {:induction false} ByteLenBounds(t: nat)
    requires t > 0
    ensures ByteLen(t) > 0 && Pow256(ByteLen(t) - 1) <= t < Pow256(ByteLen(t))
  {
    if t >= 256 {
      ByteLenBounds(t / 256);
      var p := Pow256(ByteLen(t / 256) - 1);
      assert Pow256(ByteLen(t / 256)) == 256 * p;
      assert Pow256(ByteLen(t)) == 256 * Pow256(ByteLen(t / 256));
    } else {
      assert ByteLen(t / 256) == 0;
      assert Pow256(1) == 256;
    }
  }

  lemma SmallPowers()
    ensures Pow256(0) == 1 && Pow256(1) == 0x100 && Pow256(2) == 0x1_0000 && Pow256(3) == 0x100_0000
  {
    assert Pow256(1) == 256 * Pow256(0);
    assert Pow256(2) == 256 * Pow256(1);
    assert Pow256(3) == 256 * Pow256(2);
  }

  /** What normalizing a positive number gives. */
  lemma {:induction false} NormalizeSmall(t: nat)
    requires 0 < t < 0x80_0000
    ensures var (m, e) := Normalize(t); 0 <= m < 0x80_0000 && e <= 3 && Magnitude(m, e) == t
  {
    SmallPowers();
    ByteLenBounds(t);
    var n := ByteLen(t);
    if n > 3 { Pow256Mono(3, n - 1); }
    assert n == 1 || n == 2 || n == 3;
  }

  /** The three top bytes of a number of at least three bytes. */
  lemma {:induction false} TopOfLarge(t: nat)
    requires t >= 0x80_0000
    ensures var n := ByteLen(t);
            n >= 3 && var p := Pow256(n - 3);
            && TopBytes(t, n) == t / p && 0x1_0000 <= t / p < 0x100_0000
            && 0x1_0000 * p <= t && (t / p >= 0x80_0000 ==> 0x80_0000 * p <= t) && (n == 3 ==> t / p >= 0x80_0000)
  {
    SmallPowers();
    ByteLenBounds(t);
    var n := ByteLen(t);
    if n < 3 { Pow256Mono(n, 2); }
    var p := Pow256(n - 3);
    Pow256Add(3, n - 3);
    Pow256Add(2, n - 3);
    DivBounds(t, p, 0x1_0000, 0x100_0000);
    if t / p >= 0x80_0000 { DivAtLeast(t, p, 0x80_0000); }
  }

  lemma {:induction false} NormalizeLarge(t: nat)
    requires t >= 0x80_0000
    ensures var (m, e) := Normalize(t); e > 3 && m == t / Pow256(e - 3) && 0x8000 <= m < 0x80_0000
  {
    TopOfLarge(t);
    var n := ByteLen(t);
    var p := Pow256(n - 3);
    if t / p >= 0x80_0000 {
      DivDiv(t, p, 256);
      assert p * 256 == Pow256(n - 2);
    }
  }

  /** An encodable number has an exponent of one byte. */
  lemma {:induction false} ExponentFits(t: nat)
    requires t >= 0x80_0000 && Encodable(t)
    ensures Normalize(t).1 <= 255
  {
    hide Pow256, ByteLen, TopBytes;
    TopOfLarge(t);
    var n := ByteLen(t);
    var p := Pow256(n - 3);
    Pow256Add(1, 252);
    SmallPowers();
    assert n == 255 ==> p == Pow256(252);
    if n > 255 { Pow256Mono(253, n - 3); }
  }

  lemma {:induction false} DivBounds(t: nat, p: nat, lo: nat, hi: nat)
    requires p > 0 && lo * p <= t < hi * p
    ensures lo <= t / p < hi
  {
    var q, r := t / p, t % p;
    assert t == p * q + r;
    assert p * (q + 1) == p * q + p;
    if q < lo { MulMono(p, q + 1, lo); }
    if q >= hi { MulMono(p, hi, q); }
  }

  lemma {:induction false} DivAtLeast(t: nat, p: nat, m: nat)
    requires p > 0 && t / p >= m
    ensures t >= m * p
  {
    MulMono(p, m, t / p);
    assert t == p * (t / p) + t % p;
  }

  /** Unpacking what packing built. */
  lemma {:induction false} UnpackPacked(m: nat, e: nat, sign: nat)
    requires m < 0x80_0000 && e <= 255 && sign <= 1
    ensures var c := (m + e * 0x100_0000 + sign * 0x80_0000) % TWO32;
            CompactToBig(c) == if sign == 1 then 0 - Magnitude(m, e) else Magnitude(m, e)
  {
    var c := m + e * 0x100_0000 + sign * 0x80_0000;
    assert c < TWO32;
    assert c / 0x100_0000 == e;
    assert c / 0x80_0000 == 2 * e + sign;
    assert c % 0x80_0000 == m;
  }

  /** A compact value at most `t` on a scale at least as coarse is at most `t` rounded down to the scale. */
  lemma {:induction false} CoarserIsBelow(t: nat, e: nat, m': nat, e': nat)
    requires e > 3 && e' >= e && Magnitude(m', e') <= t
    ensures Magnitude(m', e') <= Pow256(e - 3) * (t / Pow256(e - 3))
  {
    hide Pow256;
    var p, k := Pow256(e - 3), m' * Pow256(e' - e);
    Pow256Add(e' - e, e - 3);
    MulAssoc(m', Pow256(e' - e), p);
    var q := t / p;
    assert t == p * q + t % p && p * (q + 1) == p * q + p;
    if k > q { MulMono(p, q + 1, k); } else { MulMono(p, k, q); }
  }

  /** A compact value on a finer scale is below every value with a normalized mantissa. */
  lemma {:induction false} FinerIsBelow(m: nat, e: nat, m': nat, e': nat)
    requires e > 3 && e' < e && m >= 0x8000 && m' < 0x80_0000
    ensures Magnitude(m', e') <= Pow256(e - 3) * m
  {
    var q := Pow256(e - 4);
    if e' > 3 {
      Pow256Mono(e' - 3, e - 4);
      MulMono(m', Pow256(e' - 3), q);
    } else {
      DivShrinks(m', Pow256(3 - e'));
      MulMono(m', 1, q);
    }
    MulMono(q, m', 256 * m);
    calc {
      q * (256 * m);
      { MulAssoc(q, 256, m); }
      (q * 256) * m;
    }
  }

  /** Any compact value at most `t` is at most the multiple of the unit that `t` normalizes to. */
  lemma {:induction false} NothingBetween(t: nat, m: nat, e: nat, m': nat, e': nat)
    requires e > 3 && m == t / Pow256(e - 3) && m >= 0x8000
    requires m' < 0x80_0000 && Magnitude(m', e') <= t
    ensures Magnitude(m', e') <= Magnitude(m, e) <= t
  {
    DivAtLeast(t, Pow256(e - 3), m);
    if e' >= e { CoarserIsBelow(t, e, m', e'); } else { FinerIsBelow(m, e, m', e'); }
  }

  lemma {:induction false} DivShrinks(a: nat, d: nat)
    requires d > 0
    ensures a / d <= a
  {
    assert a == d * (a / d) + a % d;
    if a / d > 0 { MulMono(a / d, 1, d); }
  }

  lemma {:induction false} EncodedMagnitude(t: nat)
    requires t > 0 && Encodable(t)
    ensures var (m, e) := Normalize(t);
            0 <= m < 0x80_0000 && e <= 255 && CompactToBig(BigToCompact(t)) == Magnitude(m, e)
  {
    var (m, e) := Normalize(t);
    if t < 0x80_0000 { NormalizeSmall(t); } else { NormalizeLarge(t); ExponentFits(t); }
    UnpackPacked(m, e, 0);
  }

  lemma {:induction false} DecodedMagnitude(c: u32) returns (m: nat, e: nat)
    ensures m < 0x80_0000 && e <= 255
    ensures CompactToBig(c) == Magnitude(m, e) || CompactToBig(c) == 0 - Magnitude(m, e)
  {
    m, e := c % 0x80_0000, c / 0x100_0000;
  }

  /** Encoding rounds down to the greatest compact value not above the target. */
  lemma {:induction false} BigToCompactIsFloor(t: nat, c: u32)
    requires Encodable(t)
    ensures 0 <= CompactToBig(BigToCompact(t)) <= t
    ensures CompactToBig(c) <= t ==> CompactToBig(c) <= CompactToBig(BigToCompact(t))
  {
    if t == 0 {
      SmallPowers();
      assert CompactToBig(0) == 0;
    } else {
      EncodedMagnitude(t);
      var (m, e) := Normalize(t);
      if t < 0x80_0000 {
        NormalizeSmall(t);
      } else {
        NormalizeLarge(t);
        NothingBetween(t, m, e, 0, e);
        var m', e' := DecodedMagnitude(c);
        if 0 <= CompactToBig(c) <= t { NothingBetween(t, m, e, m', e'); }
      }
    }
  }

  lemma {:induction false} DecodedIsEncodable(c: u32)
    ensures Encodable(CompactToBig(c))
  {
    hide Pow256;
    var m, e := c % 0x80_0000, c / 0x100_0000;
    var top := Pow256(252);
    assert Magnitude(m, e) <= m * top by {
      if e <= 3 {
        DivShrinks(m, Pow256(3 - e));
        MulMono(m, 1, top);
      } else {
        Pow256Mono(e - 3, 252);
        MulMono(m, Pow256(e - 3), top);
      }
    }
    MulMono(top, m + 1, 0x80_0000);
    assert top * (m + 1) == top * m + top;
  }

  lemma {:induction false} EncodeNegative(t: nat)
    requires t > 0 && Encodable(t)
    ensures CompactToBig(BigToCompact(0 - t)) == -CompactToBig(BigToCompact(t))
  {
    hide Magnitude, Normalize, CompactToBig, Encodable;
    var (m, e) := Normalize(t);
    if t < 0x80_0000 { NormalizeSmall(t); } else { NormalizeLarge(t); ExponentFits(t); }
    UnpackPacked(m, e, 0);
    UnpackPacked(m, e, 1);
  }

  /** Clearing the sign bit negates the target. */
  lemma {:induction false} FlipSign(c: u32)
    requires CompactToBig(c) < 0
    ensures c >= 0x80_0000 && CompactToBig(c - 0x80_0000) == -CompactToBig(c)
  {
    hide Magnitude;
    var f := c - 0x80_0000;
    assert (c / 0x80_0000) % 2 == 1;
    assert f / 0x100_0000 == c / 0x100_0000 && f % 0x80_0000 == c % 0x80_0000 && (f / 0x80_0000) % 2 == 0;
  }

  /** Encoding a negative number rounds it up, to the least compact value not below it. */
  lemma {:induction false} NegativeRoundsUp(t: nat, c: u32)
    requires t > 0 && Encodable(t)
    ensures 0 - t <= CompactToBig(BigToCompact(0 - t)) <= 0
    ensures 0 - t <= CompactToBig(c) ==> CompactToBig(BigToCompact(0 - t)) <= CompactToBig(c)
  {
    hide CompactToBig, BigToCompact, Pow256;
    EncodeNegative(t);
    BigToCompactIsFloor(t, 0);
    if 0 - t <= CompactToBig(c) < 0 {
      FlipSign(c);
      BigToCompactIsFloor(t, c - 0x80_0000);
    }
  }

  /** Decoding, encoding and decoding again gives the same target, for every 32-bit pattern. */
  lemma {:induction false} DecodeEncodeDecode(c: u32)
    ensures CompactToBig(BigToCompact(CompactToBig(c))) == CompactToBig(c)
  {
    hide CompactToBig, BigToCompact, Pow256;
    var d := CompactToBig(c);
    DecodedIsEncodable(c);
    if d >= 0 {
      BigToCompactIsFloor(d, c);
    } else {
      FlipSign(c);
      BigToCompactIsFloor(-d, c - 0x80_0000);
      EncodeNegative(-d);
    }
  }

  // --------------------------------------------------------------------------------- work

  function CalcWork(bits: u32): nat {
    var target := CompactToBig(bits);
    if target <= 0 then 0 else Pow256(32) / (target + 1)
  }

  /** Work is 2^256 divided by the target plus one, rounded down; no positive target, no work. */
  lemma {:induction false} WorkIsQuotient(bits: u32)
    ensures CompactToBig(bits) <= 0 ==> CalcWork(bits) == 0
    ensures CompactToBig(bits) > 0 ==>
              var d := CompactToBig(bits) + 1; CalcWork(bits) * d <= Pow256(32) < (CalcWork(bits) + 1) * d
  {
    hide CompactToBig, Pow256;
    if CompactToBig(bits) > 0 {
      var n, d := Pow256(32), CompactToBig(bits) + 1;
      assert n == d * (n / d) + n % d;
      MulCommutes(d, n / d);
      MulCommutes(d, n / d + 1);
    }
  }

  lemma {:induction false} MulCommutes(a: int, b: int)
    ensures a * b == b * a && a * (b + 1) == a * b + a
  {
  }

  /** A block carries work exactly when its target is positive and fits in 256 bits. */
  lemma {:induction false} WorkIsPositiveIff(bits: u32)
    ensures CalcWork(bits) > 0 <==> 0 < CompactToBig(bits) < Pow256(32)
  {
    var t := CompactToBig(bits);
    if t > 0 {
      var d := t + 1;
      if t < Pow256(32) { DivBounds(Pow256(32), d, 1, Pow256(32) + 1) by { MulMono(Pow256(32) + 1, 2, d); } }
      else { DivUnique(Pow256(32), d, 0, Pow256(32)); }
    }
  }

  /** A smaller target is worth at least as much work. */
  lemma {:induction false} WorkFallsWithTarget(hard: u32, easy: u32)
    requires 0 < CompactToBig(hard) <= CompactToBig(easy)
    ensures CalcWork(hard) >= CalcWork(easy)
  {
    hide CompactToBig, Pow256;
    DivFallsWithDivisor(Pow256(32), CompactToBig(hard) + 1, CompactToBig(easy) + 1);
  }

  // ------------------------------------------------------------------------ proof of work

  function Abs(x: int): nat {
    if x < 0 then -x else x
  }

  /** The target as 32 little-endian bytes; higher bytes are dropped, as the loop drops them. */
  function CompactToHash(bits: u32): Hash {
    LE(Abs(CompactToBig(bits)), 32)
  }

  /** The bytes of a number without leading zeros, most significant first. */
  function BigBytes(v: nat): Bytes {
    if v == 0 then [] else BigBytes(v / 256) + [v % 256]
  }

  function FromBig(bs: Bytes): nat {
    if bs == [] then 0 else FromBig(bs[..|bs| - 1]) * 256 + bs[|bs| - 1]
  }

  /** Copies the number's bytes into the hash from the least significant end; what does not fit is dropped. */
  method FillTarget(bits: u32) returns (h: Hash)
    ensures h == CompactToHash(bits)
  {
    hide CompactToBig, LE, BigBytes;
    var v := Abs(CompactToBig(bits));
    var b := BigBytes(v);
    var a := new u8[HASH_SIZE](_ => 0);
    ghost var rest := v;
    var i, j := 0, |b| - 1;
    assert b[..j + 1] == b;
    while j >= 0 && i < HASH_SIZE
      invariant 0 <= i <= HASH_SIZE && -1 <= j < |b|
      invariant b[..j + 1] == BigBytes(rest)
      invariant LE(v, HASH_SIZE) == a[..i] + LE(rest, HASH_SIZE - i)
      invariant forall k :: i <= k < HASH_SIZE ==> a[k] == 0
    {
      NextByte(rest, b[..j + 1], HASH_SIZE - i);
      assert b[..j + 1][..j] == b[..j];
      ghost var done := a[..i];
      a[i] := b[j];
      assert a[..i + 1] == done + [rest % 256];
      rest := rest / 256;
      i, j := i + 1, j - 1;
    }
    NothingLeft(rest);
    if i < HASH_SIZE { ZeroBytes(HASH_SIZE - i); }
    h := a[..];
    assert h == a[..i] + a[i..];
  }

  /** The last big-endian byte is the first little-endian one. */
  lemma {:induction false} NextByte(v: nat, b: Bytes, n: nat)
    requires b == BigBytes(v) && b != [] && n > 0
    ensures b[|b| - 1] == v % 256 && b[..|b| - 1] == BigBytes(v / 256)
    ensures LE(v, n) == [v % 256] + LE(v / 256, n - 1)
  {
  }

  lemma {:induction false} NothingLeft(v: nat)
    ensures BigBytes(v) == [] ==> v == 0
  {
  }

  lemma {:induction false} ZeroBytes(n: nat)
    ensures forall k :: 0 <= k < n ==> LE(0, n)[k] == 0
  {
    if n > 0 { ZeroBytes(n - 1); }
  }

  /** Reverses the bytes and reads them as a big-endian number. */
  method HashToBig(h: Hash) returns (v: nat)
    ensures v == FromLE(h)
  {
    var be := new u8[|h|](_ => 0);
    for i := 0 to |h|
      invariant forall k :: 0 <= k < i ==> be[k] == h[|h| - 1 - k]
    {
      be[i] := h[|h| - 1 - i];
    }
    BigOfReversed(be[..], h);
    v := FromBig(be[..]);
  }

  lemma {:induction false} BigOfReversed(be: Bytes, h: Bytes)
    requires |be| == |h| && forall k :: 0 <= k < |h| ==> be[k] == h[|h| - 1 - k]
    ensures FromBig(be) == FromLE(h)
  {
    if h != [] { BigOfReversed(be[..|be| - 1], h[1..]); }
  }

  /** Compares from the most significant byte down. */
  method Less(a: Hash, b: Hash) returns (r: bool)
    requires |a| == |b|
    ensures r <==> FromLE(a) < FromLE(b)
  {
    var i := |a|;
    assert a[..i] == a && b[..i] == b;
    while i > 0
      invariant 0 <= i <= |a|
      invariant a[i..] == b[i..]
      invariant FromLE(a) < FromLE(b) <==> FromLE(a[..i]) < FromLE(b[..i])
    {
      i := i - 1;
      TopByteDecides(a[..i], a[i], b[..i], b[i]);
      assert a[..i + 1] == a[..i] + [a[i]] && b[..i + 1] == b[..i] + [b[i]];
      if a[i] < b[i] { return true; }
      if a[i] > b[i] { return false; }
    }
    return false;
  }

  lemma {:induction false} HigherDigitWins(p: nat, u: nat, x: nat, v: nat, y: nat)
    requires u < p && v < p && x < y
    ensures u + p * x < v + p * y
  {
    MulMono(p, x + 1, y);
    assert p * (x + 1) == p * x + p;
  }

  lemma {:induction false} TopByteDecides(a: Bytes, x: u8, b: Bytes, y: u8)
    requires |a| == |b|
    ensures x < y ==> FromLE(a + [x]) < FromLE(b + [y])
    ensures x > y ==> FromLE(a + [x]) > FromLE(b + [y])
    ensures x == y ==> (FromLE(a + [x]) < FromLE(b + [y]) <==> FromLE(a) < FromLE(b))
  {
    FromLEAppend(a, x);
    FromLEAppend(b, y);
    if x < y { HigherDigitWins(Pow256(|a|), FromLE(a), x, FromLE(b), y); }
    if x > y { HigherDigitWins(Pow256(|a|), FromLE(b), y, FromLE(a), x); }
  }

  predicate PowOk(hash: Hash, bits: u32) {
    FromLE(hash) <= FromLE(CompactToHash(bits))
  }

  /** For every target that fits, the byte comparison is the comparison of numbers. */
  lemma {:induction false} PowMeansBelowTarget(hash: Hash, bits: u32)
    requires 0 <= CompactToBig(bits) < Pow256(32)
    ensures PowOk(hash, bits) <==> FromLE(hash) <= CompactToBig(bits)
  {
    FromLEInvertsLE(CompactToBig(bits), 32);
  }

  /** For any bits it compares with the magnitude of the target, whatever its sign, less what 32 bytes do not hold. */
  lemma {:induction false} PowComparesMagnitude(hash: Hash, bits: u32)
    ensures var t := CompactToBig(bits); PowOk(hash, bits) <==> FromLE(hash) <= (if t < 0 then 0 - t else t) % Pow256(32)
  {
    hide CompactToBig, LE, FromLE, Pow256;
    FromLEOfLE(Abs(CompactToBig(bits)), 32);
  }

  method ValidateProofOfWork(hash: Hash, bits: u32) returns (ok: bool)
    requires |hash| == HASH_SIZE
    ensures ok <==> PowOk(hash, bits)
  {
    var target := FillTarget(bits);
    if hash == target { return true; }
    ok := Less(hash, target);
    if !ok && FromLE(hash) == FromLE(target) {
      LEInvertsFromLE(hash);
      LEInvertsFromLE(target);
    }
  }
}
