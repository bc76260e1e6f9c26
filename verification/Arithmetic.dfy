/** Facts about products, quotients and remainders. */
module Arithmetic {

  lemma Distribute(q: int, n: int, r: int, m: int)
    ensures (q * n + r) * m == q * (m * n) + r * m
  {
    assert (q * n + r) * m == (q * n) * m + r * m;
    assert (q * n) * m == q * (n * m);
  }

  lemma ProductMonotone(a: nat, b: nat, m: nat)
    requires a <= b
    ensures a * m <= b * m
  {
    assert (b - a) * m >= 0;
    assert (b - a) * m == b * m - a * m;
  }

  /** A digit and a remainder below their radices stay below the product. */
  lemma DigitBound(digit: nat, n: nat, r: nat, m: nat)
    requires digit < n && r < m
    ensures digit * m + r < n * m
  {
    ProductMonotone(digit + 1, n, m);
    assert (digit + 1) * m == digit * m + m;
  }

  lemma QuotientBelow(d: nat, k: nat, e: nat, q: nat, r: nat)
    requires r < d && e < d && k * d + e == q * d + r
    ensures k >= q
  {
    if k + 1 <= q {
      ProductMonotone(k + 1, q, d);
    }
  }

  /** Division is determined by its defining equation. */
  lemma DivUnique(x: nat, d: nat, q: nat, r: nat)
    requires d > 0 && r < d && x == q * d + r
    ensures x / d == q && x % d == r
  {
    var k, e := x / d, x % d;
    assert x == k * d + e;
    QuotientBelow(d, k, e, q, r);
    QuotientBelow(d, q, r, k, e);
  }

  lemma TwoDigits(x: nat, m: nat, n: nat, q: nat, r: nat, high: nat, low: nat)
    requires r < m && low < n && x == q * m + r && q == high * n + low
    ensures m * n > 0 && x / (m * n) == high && x == (high * n + low) * m + r
  {
    DigitBound(low, n, r, m);
    Distribute(high, n, low, m);
    Commute(m, n);
    DivUnique(x, m * n, high, low * m + r);
  }

  lemma Commute(m: int, n: int)
    ensures m * n == n * m
  {
  }

  /** x split by m and then n is x split by m*n. */
  lemma DivDiv(x: nat, m: nat, n: nat)
    requires m > 0 && n > 0
    ensures m * n > 0
    ensures (x / m) / n == x / (m * n)
    ensures x == ((x / (m * n)) * n + (x / m) % n) * m + x % m
  {
    var q, r := x / m, x % m;
    var high, low := q / n, q % n;
    TwoDigits(x, m, n, q, r, high, low);
  }

  /** As many times as `d` fits into `total`, it fits. */
  lemma QuotientAtLeast(n: nat, d: nat, total: nat)
    requires d > 0 && n * d <= total
    ensures n <= total / d
  {
    var q := total / d;
    assert total == q * d + total % d;
    assert (q + 1) * d == q * d + d;
    if q + 1 <= n {
      ProductMonotone(q + 1, n, d);
    }
  }
}
