/** Facts about products, quotients and remainders that the solver needs to be told. */
module Arithmetic {

  lemma {:induction false} Scaled(a: real, b: real, k: real)
    requires a <= b && k >= 0.0
    ensures a * k <= b * k
  {}

  lemma {:induction false} StrictlyScaled(a: real, b: real, k: real)
    requires a < b && k > 0.0
    ensures a * k < b * k
  {}

  lemma {:induction false} Unscaled(a: real, b: real, k: real)
    requires a * k <= b * k && k > 0.0
    ensures a <= b
  {
    assert (b - a) * k >= 0.0;
  }

  lemma {:induction false} BelowOne(x: real, d: real)
    requires x < d && d > 0.0
    ensures x / d < 1.0
  {
    assert (x / d) * d == x;
  }

  lemma {:induction false} QuotientNonNegative(x: real, d: real)
    requires x >= 0.0 && d > 0.0
    ensures x / d >= 0.0
  {
    assert (x / d) * d == x;
  }

  lemma {:induction false} Multiples(n: int, d: int)
    requires n > 0
    ensures d >= 1 ==> n * d >= n
    ensures d >= 2 ==> n * d >= 2 * n
    ensures d <= 0 ==> n * d <= 0
    ensures d <= -1 ==> n * d <= -n
  {
    if d >= 2 {
      assert n * d == 2 * n + n * (d - 2);
    } else if d <= -1 {
      assert n * d == -n + n * (d + 1);
    }
  }

  /** Quotient and remainder are the only ones of their kind. */
  lemma {:induction false} DivisionUnique(t: int, n: int, q: int, r: int)
    requires n > 0 && t == n * q + r && 0 <= r < n
    ensures t / n == q && t % n == r
  {
    var d := t / n - q;
    assert n * d == r - t % n;
    Multiples(n, d);
  }
}
