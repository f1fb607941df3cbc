/** Quotients and remainders. */
module Arithmetic {

  lemma AtLeast(n: nat, k: int)
    requires k >= 1
    ensures n * k >= n
  {
    assert n * k == n + n * (k - 1);
  }

  /** A quotient and a remainder in range are the quotient and the remainder. */
  lemma Quotient(a: nat, n: nat, q: nat, r: nat)
    requires n > 0 && r < n && a == n * q + r
    ensures a / n == q && a % n == r
  {
    var p, s := a / n, a % n;
    assert a == n * p + s;
    assert n * (q - p) == s - r && n * (p - q) == r - s;
    if q > p { AtLeast(n, q - p); }
    if p > q { AtLeast(n, p - q); }
  }

  lemma SameRemainder(a: nat, b: nat, n: nat)
    requires n > 0 && a <= b < a + n && a % n == b % n
    ensures a == b
  {
    var p, q := a / n, b / n;
    assert a == n * p + a % n && b == n * q + b % n;
    assert b - a == n * (q - p) && a - b == n * (p - q);
    if q > p { AtLeast(n, q - p); }
    if p > q { AtLeast(n, p - q); }
  }

  /** The quotient is the largest number of times that n fits. */
  lemma FitsInto(k: nat, n: nat, x: nat)
    requires n > 0 && n * k <= x
    ensures k <= x / n
  {
    var q := x / n;
    assert x == n * q + x % n;
    assert n * (k - q) <= x % n;
    if k > q { AtLeast(n, k - q); }
  }

  /** Counting on after a wrap-around. */
  lemma NextRemainder(a: nat, n: nat)
    requires n > 0
    ensures (a % n + 1) % n == (a + 1) % n
  {
    var q, r := a / n, a % n;
    if r + 1 < n {
      Quotient(a + 1, n, q, r + 1);
    } else {
      assert a + 1 == n * (q + 1);
      Quotient(a + 1, n, q + 1, 0);
    }
  }
}
