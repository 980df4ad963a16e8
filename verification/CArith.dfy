/** The C arithmetic that the audio code relies on. */
module CArith {
  const INT_MAX := 0x7fff_ffff
  const INT_MIN := -0x8000_0000

  /** Values of 32 signed bits. */
  predicate IsInt32(x: int) { INT_MIN <= x <= INT_MAX }

  /** Integer division in C drops the fraction, so it rounds towards zero. */
  function TruncDiv(a: int, b: int): (q: int)
    requires b > 0
  {
    if a >= 0 then a / b else -((-a) / b)
  }

  /** The quotient times the divisor comes as near to the dividend as it can without going beyond it. */
  lemma TruncDivIsNearest(a: int, b: int)
    requires b > 0
    ensures var q := TruncDiv(a, b); if a >= 0 then q * b <= a < q * b + b else q * b - b < a <= q * b
  {
    assert a >= 0 ==> a / b * b <= a < a / b * b + b;
    assert a < 0 ==> (-a) / b * b <= -a < (-a) / b * b + b;
  }

  /** The cast from a floating point value to an integer also rounds towards zero. */
  function Trunc(r: real): (n: int)
    ensures r >= 0.0 ==> 0 <= n && n as real <= r < n as real + 1.0
    ensures r <= 0.0 ==> n <= 0 && n as real - 1.0 < r <= n as real
  {
    if r >= 0.0 then r.Floor else -((-r).Floor)
  }

  /** ceil(a / b) for non-negative a. */
  function CeilDiv(a: nat, b: nat): nat
    requires b > 0
  {
    (a + b - 1) / b
  }

  lemma CeilDivBounds(a: nat, b: nat)
    requires b > 0
    ensures (CeilDiv(a, b) - 1) * b < a <= CeilDiv(a, b) * b
  {
    var q := CeilDiv(a, b);
    assert q * b <= a + b - 1 < (q + 1) * b;
  }

  lemma MulMono(a: int, b: int, c: nat)
    requires a <= b
    ensures a * c <= b * c
  {
  }

  /** Division is below `hi` exactly when the dividend is below the next multiple. */
  lemma IntDivAtMost(a: nat, b: int, hi: int)
    requires b > 0 && a < (hi + 1) * b
    ensures a / b <= hi
  {
    if hi < a / b {
      MulMono(hi + 1, a / b, b);
      assert false;
    }
  }

  lemma TruncDivBounds(a: int, b: int, lo: int, hi: int)
    requires b > 0 && lo <= 0 <= hi
    requires lo * b <= a <= hi * b
    ensures lo <= TruncDiv(a, b) <= hi
  {
    assert (hi + 1) * b == hi * b + b && (-lo + 1) * b == -(lo * b) + b;
    if a >= 0 {
      IntDivAtMost(a, b, hi);
    } else {
      IntDivAtMost(-a, b, -lo);
    }
  }

  /** ceil(a / b) is the only integer q with (q - 1) * b < a <= q * b. */
  lemma CeilDivUnique(a: nat, b: nat, q: nat)
    requires b > 0 && (q - 1) * b < a <= q * b
    ensures q == CeilDiv(a, b)
  {
    var c := CeilDiv(a, b);
    CeilDivBounds(a, b);
    if q <= c - 1 {
      MulMono(q, c - 1, b);
    } else if c <= q - 1 {
      MulMono(c, q - 1, b);
    }
  }

  /** How far two values are apart. */
  function Distance(a: int, b: int): (d: nat)
    ensures a <= b + d && b <= a + d && (d == a - b || d == b - a)
  {
    if a >= b then a - b else b - a
  }

  /** Nothing less is enough to get from either to the other. */
  lemma DistanceIsLeast(a: int, b: int, d: nat)
    ensures a <= b + d && b <= a + d <==> Distance(a, b) <= d
  {
  }

  lemma DistanceScales(a: int, b: int, n: nat)
    ensures Distance(a, b) * n == Distance(a * n, b * n)
  {
    MulMono(if a >= b then b else a, if a >= b then a else b, n);
    assert (a - b) * n == a * n - b * n;
    assert (b - a) * n == b * n - a * n;
  }
}
