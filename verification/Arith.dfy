/** The few facts about products and quotients that the other modules need. */
module Arith {
  function Pow2(n: nat): (r: nat)
    ensures r > 0
  {
    if n == 0 then 1 else 2 * Pow2(n - 1)
  }

  function Pow256(n: nat): (r: nat)
    ensures r > 0
  {
    if n == 0 then 1 else 256 * Pow256(n - 1)
  }

  lemma {:induction false} Pow2Add(a: nat, b: nat)
    ensures Pow2(a + b) == Pow2(a) * Pow2(b)
  {
    if a > 0 {
      Pow2Add(a - 1, b);
      MulAssoc(2, Pow2(a - 1), Pow2(b));
    }
  }

  lemma {:induction false} Pow2OfEight()
    ensures Pow2(8) == 0x100
  {
    assert Pow2(4) == 16;
  }

  lemma {:induction false} Pow2Widths()
    ensures Pow2(32) == 0x1_0000_0000 && Pow2(64) == 0x1_0000_0000_0000_0000
  {
    hide Pow2;
    Pow2OfEight();
    Pow2Add(8, 8);
    Pow2Add(16, 16);
    Pow2Add(32, 32);
  }

  lemma {:induction false} Pow256Add(a: nat, b: nat)
    ensures Pow256(a + b) == Pow256(a) * Pow256(b)
  {
    if a > 0 {
      Pow256Add(a - 1, b);
      MulAssoc(256, Pow256(a - 1), Pow256(b));
    }
  }

  lemma {:induction false} Pow256Mono(a: nat, b: nat)
    requires a <= b
    ensures Pow256(a) <= Pow256(b)
  {
    if a < b { Pow256Mono(a, b - 1); }
  }

  lemma {:induction false} MulAtLeast(d: int, k: int)
    requires d > 0 && k >= 1
    ensures d * k >= d
  {
    assert d * k == d * (k - 1) + d;
    assert d * (k - 1) >= 0;
  }

  lemma {:induction false} MultipleAtLeast(x: int, d: int)
    requires d > 0 && x > 0 && x % d == 0
    ensures x >= d
  {
    if x < d { DivUnique(x, d, 0, x); }
  }

  lemma {:induction false} DivUnique(x: int, d: int, q: int, r: int)
    requires d > 0 && x == d * q + r && 0 <= r < d
    ensures x / d == q && x % d == r
  {
    var q', r' := x / d, x % d;
    assert x == d * q' + r';
    assert d * (q - q') == r' - r;
    assert d * (q' - q) == r - r';
    if q > q' { MulAtLeast(d, q - q'); }
    if q < q' { MulAtLeast(d, q' - q); }
  }

  lemma {:induction false} DivDiv(x: nat, a: nat, b: nat)
    requires a > 0 && b > 0
    ensures a * b > 0
    ensures (x / a) / b == x / (a * b)
  {
    var q, r := x / a, x % a;
    var q2, r2 := q / b, q % b;
    MulAtLeast(a, b);
    calc {
      x;
      a * q + r;
      a * (b * q2 + r2) + r;
      a * (b * q2) + a * r2 + r;
      { MulAssoc(a, b, q2); }
      (a * b) * q2 + (a * r2 + r);
    }
    assert a * r2 + r < a * b by {
      MulMono(a, r2 + 1, b);
      assert a * (r2 + 1) == a * r2 + a;
    }
    assert a * r2 >= 0;
    DivUnique(x, a * b, q2, a * r2 + r);
  }

  lemma {:induction false} DivMono(x: int, y: int, d: int)
    requires d > 0 && x <= y
    ensures x / d <= y / d
  {
    var q, r := x / d, y / d;
    assert x == d * q + x % d && y == d * r + y % d && d * (r + 1) == d * r + d;
    if q > r { MulMono(d, r + 1, q); }
  }

  lemma {:induction false} DivFallsWithDivisor(x: nat, d: nat, e: nat)
    requires 0 < d <= e
    ensures x / e <= x / d
  {
    var q, r := x / e, x / d;
    assert x == e * q + x % e && x == d * r + x % d && d * (r + 1) == d * r + d;
    DivNonNegative(x, e);
    if q > r {
      MulMono(d, r + 1, q);
      MulMono(q, d, e);
    }
  }

  lemma {:induction false} DivNonNegative(x: nat, d: nat)
    requires d > 0
    ensures x / d >= 0
  {
    var q, r := x / d, x % d;
    assert x == d * q + r;
    if q < 0 { MulMono(d, q, -1); }
  }

  lemma {:induction false} MulNonNegative(x: nat, y: nat)
    ensures x * y >= 0
  {
  }

  lemma {:induction false} MulAssoc(a: int, b: int, c: int)
    ensures a * (b * c) == (a * b) * c
  {
  }

  lemma {:induction false} MulMono(a: int, x: int, y: int)
    requires a >= 0 && x <= y
    ensures a * x <= a * y
  {
    assert a * y - a * x == a * (y - x);
  }
}
