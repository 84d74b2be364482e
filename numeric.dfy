/** Python's numeric conversions that the labeller relies on, stated over
    Dafny's exact integers and reals. */
module Numeric {

  function Abs(x: real): real { if x < 0.0 then -x else x }

  function Pow10(k: nat): (p: nat)
    ensures p >= 1
  {
    if k == 0 then 1 else 10 * Pow10(k - 1)
  }

  /** Python's `round(x)`: the nearest integer, ties going to the even one. */
  function RoundHalfEven(x: real): (r: int)
    ensures -0.5 <= r as real - x <= 0.5
    ensures (r as real - x == 0.5 || x - r as real == 0.5) ==> r % 2 == 0
  {
    var f := x.Floor;
    var d := x - f as real;
    if d < 0.5 then f
    else if d > 0.5 then f + 1
    else if f % 2 == 0 then f else f + 1
  }

  /** The two properties in RoundHalfEven's contract pin the result down. */
  lemma RoundHalfEvenUnique(x: real, r: int)
    requires -0.5 <= r as real - x <= 0.5
    requires (r as real - x == 0.5 || x - r as real == 0.5) ==> r % 2 == 0
    ensures r == RoundHalfEven(x)
  {
  }

  /** Python's `int(x)` on a float: truncation toward zero. */
  function Trunc(x: real): (n: int)
    ensures 0.0 <= x ==> n as real <= x < n as real + 1.0
    ensures x < 0.0 ==> n as real - 1.0 < x <= n as real
  {
    if x >= 0.0 then x.Floor else -((-x).Floor)
  }

  /** Python's `x % m` on floats with m > 0: the result takes the sign of m. */
  function FloatMod(x: real, m: real): (r: real)
    requires m > 0.0
    ensures 0.0 <= r < m
  {
    var q := (x / m).Floor as real;
    assert q <= x / m < q + 1.0;
    var d := q + 1.0 - x / m;
    assert d > 0.0 && d * m > 0.0;
    assert (q + 1.0) * m - x == d * m;
    x - m * q
  }

  /** FloatMod is the one value in [0, m) that differs from x by a whole
      number of m. */
  lemma FloatModUnique(x: real, m: real, k: int)
    requires m > 0.0 && 0.0 <= x - k as real * m < m
    ensures FloatMod(x, m) == x - k as real * m
  {
    var f := (x / m).Floor;
    assert k as real <= x / m < k as real + 1.0 by {
      assert k as real * m <= x < (k as real + 1.0) * m;
      DivideBounds(x, m, k as real);
    }
    assert f == k;
  }

  lemma DivideBounds(x: real, m: real, q: real)
    requires m > 0.0 && q * m <= x < (q + 1.0) * m
    ensures q <= x / m < q + 1.0
  {
    var y := x / m;
    assert y * m == x;
    FactorSign(y - q, m);
    FactorSign(q + 1.0 - y, m);
  }

  lemma FactorSign(t: real, m: real)
    requires m > 0.0
    ensures t * m >= 0.0 ==> t >= 0.0
    ensures t * m > 0.0 ==> t > 0.0
  {
  }
}
