/** C arithmetic that differs from Dafny's own: integer division and the
    float-to-int cast both round toward zero, where Dafny's `/` on `int` is
    Euclidean and `.Floor` rounds down. */
module CMath {

  /** C's `a / b` on `int` for a positive divisor. */
  function TruncDiv(a: int, b: int): (q: int)
    requires b > 0
    ensures 0 <= a ==> 0 <= q && q * b <= a < q * b + b
    ensures a < 0 ==> q <= 0 && q * b - b < a <= q * b
  {
    if a >= 0 then a / b else -((-a) / b)
  }

  /** C's `(int)r` for a float value `r` (the value is assumed to fit in an int). */
  function TruncReal(r: real): (n: int)
    ensures 0.0 <= r ==> 0 <= n && n as real <= r < n as real + 1.0
    ensures r < 0.0 ==> n <= 0 && n as real - 1.0 < r <= n as real
  {
    if r >= 0.0 then r.Floor else -((-r).Floor)
  }

  function Abs(r: real): (a: real)
    ensures a >= 0.0 && (a == r || a == -r)
  {
    if r < 0.0 then -r else r
  }

  /** Truncation is odd: it commutes with negation, which floor division does not. */
  lemma TruncDivOdd(a: int, b: int)
    requires b > 0
    ensures TruncDiv(-a, b) == -TruncDiv(a, b)
  {
  }

  /** A negative dividend smaller in magnitude than the divisor gives 0, not -1. */
  lemma TruncDivTowardZero(a: int, b: int)
    requires b > 0 && -b < a < 0
    ensures TruncDiv(a, b) == 0 && a / b == -1
  {
    assert (-a) / b == 0;
    assert (-1) * b + (a + b) == a && 0 <= a + b < b;
  }

  /** The cast of a value in (-1, 0) is 0, not -1. */
  lemma TruncRealTowardZero(r: real)
    requires -1.0 < r < 0.0
    ensures TruncReal(r) == 0 && r.Floor == -1
  {
  }

  /** The cast leaves a whole number as it is. */
  lemma TruncRealOfInt(n: int)
    ensures TruncReal(n as real) == n
  {
  }

  /** The cast is monotone. */
  lemma {:induction false} TruncRealMonotone(r: real, s: real)
    requires r <= s
    ensures TruncReal(r) <= TruncReal(s)
  {
    if 0.0 <= r {
      assert r.Floor <= s.Floor;
    } else if s < 0.0 {
      assert (-s).Floor <= (-r).Floor;
    }
  }
}
