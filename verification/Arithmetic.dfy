/** Rounding of exact quotients, and the few facts about products it needs. */
module Arithmetic {

  lemma MulLe(a: nat, b: nat, c: nat)
    requires a <= b
    ensures a * c <= b * c
  {
  }

  lemma MulLt(a: nat, b: nat, c: nat)
    requires a < b && c > 0
    ensures a * c < b * c
  {
  }

  lemma MulCancel(a: nat, b: nat, c: nat)
    requires a * c < b * c
    ensures a < b
  {
    if a >= b {
      MulLe(b, a, c);
    }
  }

  lemma MulAssoc(a: nat, b: nat, c: nat)
    ensures a * b * c == a * (b * c) == b * (a * c)
  {
  }

  /** n / d to the nearest integer, halves away from zero. */
  function RoundHalfUp(n: nat, d: nat): nat
    requires d > 0
  {
    (2 * n + d) / (2 * d)
  }

  /** The same for negative numerators too. */
  function RoundAwayFromZero(n: int, d: nat): int
    requires d > 0
  {
    if n >= 0 then RoundHalfUp(n, d) else -(RoundHalfUp(-n, d) as int)
  }

  /** n / d to the nearest integer, halves to the even neighbour. */
  function RoundHalfEven(n: nat, d: nat): nat
    requires d > 0
  {
    var q := n / d;
    var r := n % d;
    if 2 * r < d || (2 * r == d && q % 2 == 0) then q else q + 1
  }

  lemma QuotientAtLeast(x: nat, y: nat, k: nat)
    requires y > 0
    ensures x / y >= k <==> x >= k * y
  {
    var q := x / y;
    assert x == q * y + x % y;
    if q >= k {
      assert q * y >= k * y;
    } else {
      assert (q + 1) * y <= k * y;
    }
  }

  lemma HalfUpAtLeast(n: nat, d: nat, k: nat)
    requires d > 0
    ensures RoundHalfUp(n, d) >= k <==> 2 * n + d >= 2 * (k * d)
  {
    QuotientAtLeast(2 * n + d, 2 * d, k);
    assert k * (2 * d) == 2 * (k * d);
  }

  /** r is within half a unit of n / d. */
  predicate IsNearest(r: nat, n: nat, d: nat) {
    2 * (r * d) <= 2 * n + d && 2 * n <= 2 * (r * d) + d
  }

  lemma HalfUpIsNearest(n: nat, d: nat)
    requires d > 0
    ensures IsNearest(RoundHalfUp(n, d), n, d)
  {
    var r := RoundHalfUp(n, d);
    HalfUpAtLeast(n, d, r);
    HalfUpAtLeast(n, d, r + 1);
    assert (r + 1) * d == r * d + d;
  }

  lemma HalfEvenIsNearest(n: nat, d: nat)
    requires d > 0
    ensures IsNearest(RoundHalfEven(n, d), n, d)
  {
    var q := n / d;
    assert n == q * d + n % d;
    assert (q + 1) * d == q * d + d;
  }

  lemma HalfEvenOrder(a: nat, b: nat, d: nat, qd: nat, rd: nat)
    requires a < b && 2 * qd <= 2 * a + d && 2 * b <= 2 * rd + d
    ensures qd < rd + d
  {
  }

  lemma NearestOrder(a: nat, b: nat, d: nat, q: nat, r: nat)
    requires a < b && d > 0 && 2 * (q * d) <= 2 * a + d && 2 * b <= 2 * (r * d) + d
    ensures q <= r
  {
    HalfEvenOrder(a, b, d, q * d, r * d);
    assert (r + 1) * d == r * d + d;
    MulCancel(q, r + 1, d);
  }

  lemma HalfEvenMonotone(a: nat, b: nat, d: nat)
    requires a <= b && d > 0
    ensures RoundHalfEven(a, d) <= RoundHalfEven(b, d)
  {
    if a < b {
      HalfEvenIsNearest(a, d);
      HalfEvenIsNearest(b, d);
      NearestOrder(a, b, d, RoundHalfEven(a, d), RoundHalfEven(b, d));
    }
  }

  lemma HalfEvenExact(n: nat, d: nat)
    requires d > 0
    ensures RoundHalfEven(n * d, d) == n
  {
    QuotientAtLeast(n * d, d, n);
    QuotientAtLeast(n * d, d, n + 1);
    assert (n + 1) * d == n * d + d;
  }
}
