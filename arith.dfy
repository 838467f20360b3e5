/** Facts about integer division and remainder used by the clock and index arithmetic. */
module Arith {

  lemma {:induction false} MulAtLeast(d: int, k: int)
    requires d > 0 && k >= 1
    ensures d * k >= d
    decreases k
  {
    if k > 1 {
      MulAtLeast(d, k - 1);
      assert d * k == d * (k - 1) + d;
    }
  }

  /** Euclidean division of a non-negative number brackets it between two multiples of the divisor. */
  lemma DivBounds(a: int, d: int)
    requires a >= 0 && d > 0
    ensures 0 <= a / d && (a / d) * d <= a < (a / d) * d + d
  {
  }

  /** Quotient and remainder are the only pair with a == d * q + r and 0 <= r < d. */
  lemma {:induction false} DivModUnique(a: int, d: int, q: int, r: int)
    requires d > 0 && 0 <= r < d && a == d * q + r
    ensures a / d == q && a % d == r
  {
    var q2, r2 := a / d, a % d;
    assert d * (q - q2) == r2 - r;
    if q > q2 {
      MulAtLeast(d, q - q2);
    } else if q < q2 {
      MulAtLeast(d, q2 - q);
    }
  }

  /** Two numbers d apart leave the same remainder modulo n only when n divides d. */
  lemma {:induction false} SameRemainder(a: int, d: int, n: int)
    requires n > 0
    ensures a % n == (a + d) % n ==> d % n == 0
  {
    if a % n == (a + d) % n {
      var q1, q2 := a / n, (a + d) / n;
      assert d == n * (q2 - q1);
      DivModUnique(d, n, q2 - q1, 0);
    }
  }
}
