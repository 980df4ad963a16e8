/** Products and quotients of reals, one fact at a time. */
module RealArith {

  lemma ScaleMono(a: real, b: real, c: real)
    requires a <= b && c >= 0.0
    ensures a * c <= b * c
  {
  }

  lemma ScaleStrict(a: real, b: real, c: real)
    requires a < b && c > 0.0
    ensures a * c < b * c
  {
  }

  lemma MulPositive(a: real, b: real)
    requires a > 0.0 && b > 0.0
    ensures a * b > 0.0
  {
  }

  lemma MulNonNegative(a: real, b: real)
    requires a >= 0.0 && b >= 0.0
    ensures a * b >= 0.0
  {
  }

  lemma NonZeroProduct(x: real, y: real)
    requires x != 0.0 && y != 0.0
    ensures x * y != 0.0
  {
  }

  lemma DivMul(x: real, y: real)
    requires y != 0.0
    ensures x / y * y == x
  {
  }

  lemma DivAtMost(x: real, y: real, hi: real)
    requires y > 0.0 && x <= hi * y
    ensures x / y <= hi
  {
    var q := x / y;
    DivMul(x, y);
    if hi < q {
      ScaleStrict(hi, q, y);
      assert false;
    }
  }

  lemma DivAtLeast(x: real, y: real, lo: real)
    requires y > 0.0 && lo * y <= x
    ensures lo <= x / y
  {
    var q := x / y;
    DivMul(x, y);
    if q < lo {
      ScaleStrict(q, lo, y);
      assert false;
    }
  }

  lemma DivBelow(x: real, y: real, hi: real)
    requires y > 0.0 && x < hi * y
    ensures x / y < hi
  {
    var q := x / y;
    DivMul(x, y);
    if hi <= q {
      ScaleMono(hi, q, y);
      assert false;
    }
  }

  lemma DivAbove(x: real, y: real, lo: real)
    requires y > 0.0 && lo * y < x
    ensures lo < x / y
  {
    var q := x / y;
    DivMul(x, y);
    if q <= lo {
      ScaleMono(q, lo, y);
      assert false;
    }
  }

  /** A quotient is the only solution of q * y == x. */
  lemma DivUnique(x: real, y: real, q: real)
    requires y != 0.0 && q * y == x
    ensures q == x / y
  {
    DivMul(x, y);
    NonZeroIf(q - x / y, y);
    assert (q - x / y) * y == q * y - x / y * y;
  }

  lemma NonZeroIf(d: real, y: real)
    requires y != 0.0
    ensures d * y == 0.0 ==> d == 0.0
  {
    if d != 0.0 {
      NonZeroProduct(d, y);
    }
  }

  lemma FactorBelow(a: real, b: real, t: real)
    requires t > 0.0 && a * t < b * t
    ensures a < b
  {
    assert (a - b) * t == a * t - b * t;
    if a >= b {
      MulNonNegative(a - b, t);
    }
  }

  /** A factor above one makes a positive number greater, and one below makes it smaller. */
  lemma FactorCompares(x: real, f: real)
    requires x > 0.0
    ensures f > 1.0 ==> x * f > x
    ensures f < 1.0 ==> x * f < x
  {
    assert (f - 1.0) * x == x * f - x && (1.0 - f) * x == x - x * f;
    if f > 1.0 {
      MulPositive(f - 1.0, x);
    } else if f < 1.0 {
      MulPositive(1.0 - f, x);
    }
  }

  lemma MoveFactor(s: real, p: real, r: real)
    ensures s * (r * p) == s * p * r
  {
  }

  lemma SharedFactor(s: real, x: real, f: real, y: real, z: real)
    requires s > 0.0 && y > 0.0 && x == s * f && z == y * f
    ensures f > 1.0 ==> s < x && y < z
    ensures f < 1.0 ==> x < s && z < y
  {
    FactorCompares(s, f);
    FactorCompares(y, f);
  }
}
