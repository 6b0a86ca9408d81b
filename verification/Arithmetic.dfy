/** Quotients and remainders. */
module Arithmetic {
  lemma MultipleGrows(n: nat, d: int)
    ensures d >= 1 ==> n * d >= n
    ensures d <= -1 ==> n * d <= 0 - n
  {
    if d >= 1 {
      assert n * d == n + n * (d - 1);
    } else if d <= -1 {
      assert n * d == 0 - n - n * (0 - d - 1);
    }
  }

  /** Quotient and remainder are unique. */
  lemma QuotientAndRemainder(x: nat, n: nat, q: nat, m: nat)
    requires n > 0 && x == n * q + m && m < n
    ensures x / n == q && x % n == m
  {
    var d := x / n - q;
    assert n * d == m - x % n by {
      assert x == n * (x / n) + x % n;
      assert n * (x / n) - n * q == n * d;
    }
    MultipleGrows(n, d);
  }
}
