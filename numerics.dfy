/** C++ arithmetic the firmware relies on. Floating point is modelled by exact
    reals; what matters here is how a value comes back to an integral type:
    C++ integer division and the float-to-integer conversion both discard the
    fractional part, i.e. they truncate toward zero (Dafny's own `/` on `int`
    is Euclidean, so it is not used for either). */
module Numerics {

  function Abs(n: int): nat { if n < 0 then -n else n }

  /** `a / b` on C++ integers: the algebraic quotient with any fractional part
      discarded. */
  function TruncDiv(a: int, b: int): (q: int)
    requires b != 0
    ensures Abs(q) == Abs(a) / Abs(b)
    ensures (a >= 0) == (b > 0) ==> q >= 0
    ensures (a >= 0) != (b > 0) ==> q <= 0
    ensures a >= 0 && b > 0 ==> q == a / b
  {
    var n := Abs(a) / Abs(b);
    QuotientNonNegative(Abs(a), Abs(b));
    if (a >= 0) == (b > 0) then n else -n
  }

  lemma QuotientNonNegative(x: int, y: int)
    requires x >= 0 && y > 0
    ensures x / y >= 0
  {
  }

  /** Conversion of a floating-point value to an integral type: the value with
      its fractional part discarded. */
  function TruncToInt(x: real): (n: int)
    ensures x >= 0.0 ==> 0 <= n && n as real <= x < n as real + 1.0
    ensures x < 0.0 ==> n <= 0 && n as real - 1.0 < x <= n as real
  {
    if x >= 0.0 then x.Floor else -((-x).Floor)
  }

  /** A value that is already integral converts to itself. */
  lemma TruncToIntOfInt(k: int)
    ensures TruncToInt(k as real) == k
  {
  }

  lemma TruncToIntMonotone(x: real, y: real)
    requires x <= y
    ensures TruncToInt(x) <= TruncToInt(y)
  {
  }

  /** Halving in floating point and converting back (`n / 2.0f` stored in an
      integral `T`) gives the C++ integer quotient `n / 2`. */
  lemma TruncHalf(n: int)
    ensures TruncToInt(n as real / 2.0) == TruncDiv(n, 2)
  {
  }

  /** The quotient of Euclidean division is the only `q` that leaves a
      remainder in `[0, d)`. */
  lemma DivUnique(n: int, d: int, q: int, r: int)
    requires d > 0 && 0 <= r < d && n == q * d + r
    ensures n / d == q
  {
    var q' := n / d;
    if q' > q {
      assert (q + 1) * d == q * d + d;
      MulMonotone(q + 1, q', d);
    } else if q' < q {
      assert (q' + 1) * d == q' * d + d;
      MulMonotone(q' + 1, q, d);
    }
  }

  /** Euclidean division by a positive divisor is monotone in the dividend. */
  lemma DivMonotone(a: int, b: int, d: int)
    requires 0 <= a <= b && d > 0
    ensures a / d <= b / d
  {
    var qa, qb := a / d, b / d;
    if qa > qb {
      MulStep(qb, qa, d);
    }
  }

  lemma MulStep(x: int, y: int, d: int)
    requires x < y && d >= 0
    ensures x * d + d <= y * d
  {
    MulMonotone(x + 1, y, d);
    assert (x + 1) * d == x * d + d;
  }

  lemma MulMonotone(x: int, y: int, d: int)
    requires x <= y && d >= 0
    ensures x * d <= y * d
  {
    assert y * d - x * d == (y - x) * d;
  }

  /** Truncating division by a positive divisor is monotone in the dividend,
      on both sides of zero. */
  lemma TruncDivMonotone(a: int, b: int, d: int)
    requires a <= b && d > 0
    ensures TruncDiv(a, d) <= TruncDiv(b, d)
  {
    if 0 <= a {
      DivMonotone(a, b, d);
    } else if b < 0 {
      DivMonotone(-b, -a, d);
    }
  }

  /** A multiple of the divisor divides exactly. */
  lemma TruncDivExact(k: int, d: int)
    requires d != 0
    ensures TruncDiv(k * d, d) == k
  {
    ProductSign(k, d);
    DivUnique(Abs(k) * Abs(d), Abs(d), Abs(k), 0);
  }

  /** The magnitude and sign of a product. */
  lemma ProductSign(k: int, d: int)
    ensures Abs(k * d) == Abs(k) * Abs(d)
    ensures k * d >= 0 <==> k == 0 || d == 0 || (k > 0) == (d > 0)
  {
    if k < 0 && d < 0 {
      assert k * d == (-k) * (-d);
    } else if k < 0 {
      assert k * d == -((-k) * d);
    } else if d < 0 {
      assert k * d == -(k * (-d));
    }
  }

  /** A non-negative dividend at most `d * m` gives a quotient at most `m`. */
  lemma DivAtMost(n: int, d: int, m: int)
    requires 0 <= n <= d * m && d > 0
    ensures n / d <= m
  {
    DivMonotone(n, d * m, d);
    DivUnique(d * m, d, m, 0);
  }
}
