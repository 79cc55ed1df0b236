/** Integer facts used by the amount rules: powers of ten, Euclidean division
    and the ceiling of a quotient. */
module Arith {

  function Pow10(n: nat): (p: nat)
    ensures p >= 1
  {
    if n == 0 then 1 else 10 * Pow10(n - 1)
  }

  /** Euclidean division is determined by its defining equation. */
  lemma {:induction false} DivModUnique(x: int, y: int, q: int, r: int)
    requires y > 0 && x == y * q + r && 0 <= r < y
    ensures x / y == q && x % y == r
  {
    var q', r' := x / y, x % y;
    assert y * q + r == y * q' + r';
    if q > q' {
      assert y * (q - q') == r' - r;
      MulAtLeast(y, q - q');
      assert false;
    } else if q < q' {
      assert y * (q' - q) == r - r';
      MulAtLeast(y, q' - q);
      assert false;
    }
  }

  lemma {:induction false} MulAtLeast(y: int, k: int)
    requires y > 0 && k >= 1
    ensures y * k >= y
  {
  }

  /** Euclidean division by a positive number. */
  lemma {:induction false} DivMod(x: int, y: int)
    requires y > 0
    ensures x == y * (x / y) + x % y && 0 <= x % y < y
  {
  }

  /** Quotient and remainder of a natural number by a positive one. */
  function DivRem(a: nat, p: nat): (qr: (nat, nat))
    requires p > 0
    ensures qr.1 < p && a == qr.0 * p + qr.1
  {
    DivMod(a, p);
    (a / p, a % p)
  }

  /** A multiple of a positive number leaves no remainder. */
  lemma {:induction false} ModOfMultiple(y: int, k: int)
    requires y > 0
    ensures (y * k) % y == 0 && (y * k) / y == k
  {
    DivModUnique(y * k, y, k, 0);
  }

  /** Ceiling of n / k, written with Euclidean (floor) division. */
  function CeilDiv(n: int, k: int): int
    requires k > 0
  {
    -((-n) / k)
  }

  /** CeilDiv(n, k) is the ceiling of n / k: the least c with n <= c * k. */
  lemma {:induction false} CeilDivIsCeiling(n: int, k: int)
    requires k > 0
    ensures (CeilDiv(n, k) - 1) * k < n <= CeilDiv(n, k) * k
  {
    var q := (-n) / k;
    DivMod(-n, k);
    assert (-q - 1) * k == -(k * q) - k;
  }

  /** Only one integer satisfies the ceiling inequalities. */
  lemma {:induction false} CeilDivUnique(n: int, k: int, c: int)
    requires k > 0 && (c - 1) * k < n <= c * k
    ensures CeilDiv(n, k) == c
  {
    var d := CeilDiv(n, k);
    CeilDivIsCeiling(n, k);
    if d < c {
      MulMonotone(d, c - 1, k);
    } else if d > c {
      MulMonotone(c, d - 1, k);
    }
  }

  /** Rounding up twice is rounding up once by the product. */
  lemma {:induction false} CeilDivNested(x: int, a: int, b: int)
    requires a > 0 && b > 0
    ensures CeilDiv(CeilDiv(x, a), b) == CeilDiv(x, a * b)
  {
    var y := CeilDiv(x, a);
    var c := CeilDiv(y, b);
    CeilDivIsCeiling(x, a);
    CeilDivIsCeiling(y, b);
    MulMonotone(y, c * b, a);
    MulMonotone((c - 1) * b, y - 1, a);
    assert c * b * a == c * (a * b);
    assert (c - 1) * b * a == (c - 1) * (a * b);
    CeilDivUnique(x, a * b, c);
  }

  /** `x` is a multiple of 10^k: its last `k` decimal digits are zero. */
  predicate DividesPow10(x: int, k: nat)
    decreases k
  {
    k == 0 || (x % 10 == 0 && DividesPow10(x / 10, k - 1))
  }

  /** The ceiling of x / 10^k, taken one decimal digit at a time. */
  function CeilPow10(x: int, k: nat): int
    decreases k
  {
    if k == 0 then x else CeilPow10(CeilDiv(x, 10), k - 1)
  }

  lemma {:induction false} DividesPow10Iff(x: int, k: nat)
    ensures DividesPow10(x, k) <==> x % Pow10(k) == 0
    decreases k
  {
    if k > 0 {
      var p := Pow10(k - 1);
      DividesPow10Iff(x / 10, k - 1);
      DivMod(x, 10);
      if x % Pow10(k) == 0 {
        DivMod(x, Pow10(k));
        var q := x / Pow10(k);
        assert x == 10 * (p * q);
        ModOfMultiple(10, p * q);
        ModOfMultiple(p, q);
      }
      if x % 10 == 0 && (x / 10) % p == 0 {
        DivMod(x / 10, p);
        var q := (x / 10) / p;
        assert x == (10 * p) * q;
        ModOfMultiple(10 * p, q);
      }
    }
  }

  lemma {:induction false} CeilPow10IsCeilDiv(x: int, k: nat)
    ensures CeilPow10(x, k) == CeilDiv(x, Pow10(k))
    decreases k
  {
    if k > 0 {
      CeilPow10IsCeilDiv(CeilDiv(x, 10), k - 1);
      CeilDivNested(x, 10, Pow10(k - 1));
    }
  }

  lemma {:induction false} MulMonotone(a: int, b: int, k: int)
    requires a <= b && k > 0
    ensures a * k <= b * k
  {
    assert b * k - a * k == (b - a) * k;
  }
}
