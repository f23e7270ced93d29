/** The two-stage decimal arithmetic of the metrics report: a division rounded half-even to 28
    significant digits, then a half-up rounding to two places. Quantities are exact integers and
    powers of ten; exponents are unbounded. */
module DecimalRounding {
  import opened Arithmetic
  import opened Common

  function Pow10(n: nat): (p: nat)
    ensures p >= 1
  {
    if n == 0 then 1 else 10 * Pow10(n - 1)
  }

  lemma {:induction false} Pow10Add(a: nat, b: nat)
    ensures Pow10(a + b) == Pow10(a) * Pow10(b)
  {
    if b > 0 {
      Pow10Add(a, b - 1);
      MulAssoc(10, Pow10(a), Pow10(b - 1));
    }
  }

  lemma {:induction false} Pow10Monotone(a: nat, b: nat)
    requires a <= b
    ensures Pow10(a) <= Pow10(b)
    decreases b
  {
    if a < b {
      Pow10Monotone(a, b - 1);
    }
  }

  // ---------------------------------------------------------------- division to 28 digits

  /** c / t scaled by 10^s has exactly as many integer digits as `low`. */
  predicate IsScale(low: nat, c: nat, t: nat, s: int) {
    if s >= 0 then HasDigits(low, c * Pow10(s), t) else HasDigits(low, c, t * Pow10(-s))
  }

  /** n / d lies in [low, 10 * low). */
  predicate HasDigits(low: nat, n: nat, d: nat) {
    low * d <= n < low * d * 10
  }

  function ScaleUp(low: nat, c: nat, t: nat, s: nat): (r: int)
    requires c > 0 && t > 0 && c * Pow10(s) < low * t * 10
    ensures IsScale(low, c, t, r)
    decreases low * t * 10 - c * Pow10(s)
  {
    if low * t <= c * Pow10(s) then s
    else
      MulAssoc(10, c, Pow10(s));
      MulLt(0, c, Pow10(s));
      ScaleUp(low, c, t, s + 1)
  }

  function ScaleDown(low: nat, c: nat, t: nat, k: nat): (r: int)
    requires low > 0 && t > 0 && low * (t * Pow10(k)) <= c
    requires k == 0 ==> low * t * 10 <= c
    ensures IsScale(low, c, t, r)
    decreases c - low * (t * Pow10(k))
  {
    ScaleDownStep(low, t, Pow10(k));
    if c < low * (t * Pow10(k)) * 10 then
      assert k == 0 ==> t * Pow10(k) == t;
      -(k as int)
    else ScaleDown(low, c, t, k + 1)
  }

  lemma ScaleDownStep(w: nat, t: nat, p: nat)
    requires w > 0 && t > 0 && p > 0
    ensures w * (t * (10 * p)) == w * (t * p) * 10
    ensures w * (t * p) > 0
  {
    MulLt(0, t, p);
    MulLt(0, w, t * p);
    MulAssoc(t, 10, p);
    MulAssoc(w, 10, t * p);
  }

  function ScaleFor(low: nat, c: nat, t: nat): (s: int)
    requires low > 0 && c > 0 && t > 0
    ensures IsScale(low, c, t, s)
  {
    if c < low * t * 10 then ScaleUp(low, c, t, 0)
    else
      assert t * Pow10(0) == t;
      ScaleDown(low, c, t, 0)
  }

  /** The scale that leaves 28 digits before the point. */
  function Scale(c: nat, t: nat): (s: int)
    requires c > 0 && t > 0
    ensures IsScale(Pow10(27), c, t, s)
  {
    ScaleFor(Pow10(27), c, t)
  }

  /** The 28 digits of c / t; the quotient is this coefficient over 10^Scale(c, t). */
  function Coefficient(c: nat, t: nat): nat
    requires c > 0 && t > 0
  {
    var s := Scale(c, t);
    if s >= 0 then RoundHalfEven(c * Pow10(s), t)
    else
      MulLt(0, t, Pow10(-s));
      RoundHalfEven(c, t * Pow10(-s))
  }

  /** c / t divided to 28 digits and then rounded half-up to `places` decimals, in units of the last
      place. */
  function TwoStage(c: nat, t: nat, places: nat): nat
    requires t > 0
  {
    if c == 0 then 0
    else
      var s := Scale(c, t);
      if s >= 0 then RoundHalfUp(Coefficient(c, t) * Pow10(places), Pow10(s))
      else Coefficient(c, t) * Pow10(places) * Pow10(-s)
  }

  /** c / t rounded half-up once. */
  function OneStage(c: nat, t: nat, places: nat): nat
    requires t > 0
  {
    RoundHalfUp(c * Pow10(places), t)
  }

  // ---------------------------------------------------------------- one rounding or two

  lemma NotBelow(n: nat, t: nat, rt: nat, ht: nat)
    requires t > 0 && 2 * n <= 2 * rt + t && n >= ht
    ensures ht < rt + t
  {
  }

  lemma AtOrAboveKept(n: nat, t: nat, h: nat)
    requires t > 0 && n >= h * t
    ensures RoundHalfEven(n, t) >= h
  {
    var r := RoundHalfEven(n, t);
    HalfEvenIsNearest(n, t);
    NotBelow(n, t, r * t, h * t);
    assert (r + 1) * t == r * t + t;
    MulCancel(h, r + 1, t);
  }

  lemma WellBelowKept(n: nat, t: nat, h: nat, gap: nat)
    requires t > 0 && 2 * gap > t && n + gap <= h * t
    ensures RoundHalfEven(n, t) < h
  {
    var r := RoundHalfEven(n, t);
    HalfEvenIsNearest(n, t);
    MulCancel(r, h, t);
  }

  /** The first rounding moves no value across a half-way point: when `half` exceeds t / 2 and
      divides the numerator, the coefficient is at or above half * j exactly when the exact value is. */
  lemma HalfwayKept(t: nat, half: nat, j: nat, m: nat)
    requires t > 0 && 2 * half > t
    ensures RoundHalfEven(half * m, t) >= half * j <==> m >= j * t
  {
    var jt := j * t;
    MulAssoc(half, j, t);
    if m >= jt {
      MulLe(jt, m, half);
      AtOrAboveKept(half * m, t, half * j);
    } else {
      MulLe(m + 1, jt, half);
      WellBelowKept(half * m, t, half * j, half);
    }
  }

  lemma NotScaledDown(low: nat, q: nat, c: nat, t: nat, p: nat, s: int)
    requires t > 0 && c < q && p >= 1 && low == q * p && s < 0
    ensures !IsScale(low, c, t, s)
  {
    MulLe(1, p, q);
    MulLt(0, t, Pow10(-s));
    MulLe(1, t * Pow10(-s), low);
  }

  lemma NotScaledLittle(low: nat, q: nat, c: nat, t: nat, places: nat, s: nat)
    requires t > 0 && c < q && low == q * Pow10(places) && s <= places
    ensures !IsScale(low, c, t, s)
  {
    var p := Pow10(places);
    Pow10Monotone(s, places);
    MulLe(Pow10(s), p, c);
    MulLt(c, q, p);
    MulLe(1, t, low);
  }

  /** A numerator below 10^(27 - places) is scaled up by more than t. */
  lemma ScaleExceeds(low: nat, q: nat, c: nat, t: nat, places: nat, s: int)
    requires c > 0 && t > 0 && c < q && low == q * Pow10(places) && IsScale(low, c, t, s)
    ensures s > places && Pow10(s - places) > t
  {
    if s < 0 {
      NotScaledDown(low, q, c, t, Pow10(places), s);
    } else if s <= places {
      NotScaledLittle(low, q, c, t, places, s);
    } else {
      Pow10Add(s - places, places);
      ScaledAboveDivisor(c, t, q, Pow10(s - places), Pow10(places), low, Pow10(s));
    }
  }

  lemma ScaledAboveDivisor(c: nat, t: nat, q: nat, unit: nat, p: nat, w: nat, d: nat)
    requires t > 0 && p > 0 && c < q && w == q * p && d == unit * p && w * t <= c * d
    ensures unit > t
  {
    MulAssoc(c, unit, p);
    MulAssoc(q, p, t);
    MulAssoc(p, q, t);
    if unit <= t {
      MulLe(unit, t, c);
      MulLt(c, q, t);
      MulLt(c * unit, q * t, p);
    }
  }

  /** At scale s the quotient's unit is twice `half`, which exceeds t. */
  lemma UnitOfScale(c: nat, t: nat, places: nat, s: int) returns (half: nat)
    requires c > 0 && t > 0 && places < 27 && c < Pow10(27 - places) && IsScale(Pow10(27), c, t, s)
    ensures s >= 0 && half > 0 && 2 * half > t && Pow10(s) == 2 * half * Pow10(places)
  {
    Pow10Add(27 - places, places);
    ScaleExceeds(Pow10(27), Pow10(27 - places), c, t, places, s);
    var e := s - places;
    Pow10Add(e, places);
    half := 5 * Pow10(e - 1);
  }

  /** Both stages agree with one half-up rounding of the exact quotient. */
  lemma TwoStageIsOneStage(c: nat, t: nat, places: nat)
    requires t > 0 && places < 27 && c < Pow10(27 - places)
    ensures TwoStage(c, t, places) == OneStage(c, t, places)
  {
    if c > 0 {
      var s := Scale(c, t);
      var half := UnitOfScale(c, t, places, s);
      StagesAgree(c, t, Pow10(places), half, Pow10(s), Coefficient(c, t));
    }
  }

  /** The arithmetic of the two stages: x = c * p is the exact numerator in units of the last place. */
  lemma StagesAgree(c: nat, t: nat, p: nat, half: nat, d: nat, r: nat)
    requires t > 0 && p > 0 && half > 0 && 2 * half > t && d == 2 * half * p && r == RoundHalfEven(c * d, t)
    ensures RoundHalfUp(r * p, d) == RoundHalfUp(c * p, t)
  {
    HalfUpShift(r, 2 * half, p, d);
    var x := c * p;
    MulAssoc(c, 2 * half, p);
    MulAssoc(2, half, x);
    assert c * d == half * (2 * x);
    RoundingsAgreeAt(x, t, half, r, RoundHalfUp(r, 2 * half));
    RoundingsAgreeAt(x, t, half, r, RoundHalfUp(x, t));
  }

  lemma OddMultiple(k: nat, y: nat)
    requires k > 0
    ensures (2 * k - 1) * y == 2 * (k * y) - y
  {
    MulAssoc(2, k, y);
  }

  lemma RoundingsAgreeAt(x: nat, t: nat, half: nat, r: nat, k: nat)
    requires t > 0 && 2 * half > t && r == RoundHalfEven(half * (2 * x), t)
    ensures RoundHalfUp(r, 2 * half) >= k <==> RoundHalfUp(x, t) >= k
  {
    if k > 0 {
      var j := 2 * k - 1;
      HalfwayKept(t, half, j, 2 * x);
      OddMultiple(k, half);
      OddMultiple(k, t);
      MulAssoc(k, 2, half);
      HalfUpOdd(r, 2 * half, k, k * (2 * half));
      HalfUpOdd(x, t, k, k * t);
    }
  }

  /** Half-up rounding reaches k exactly at the half-way point below it. */
  lemma HalfUpOdd(n: nat, d: nat, k: nat, kd: nat)
    requires d > 0 && kd == k * d
    ensures RoundHalfUp(n, d) >= k <==> 2 * n + d >= 2 * kd
  {
    HalfUpAtLeast(n, d, k);
  }

  /** Scaling numerator and denominator alike does not change a half-up rounding. */
  lemma HalfUpShift(r: nat, unit: nat, p: nat, d: nat)
    requires unit > 0 && p > 0 && d == unit * p
    ensures RoundHalfUp(r * p, d) == RoundHalfUp(r, unit)
  {
    HalfUpShiftAt(r, unit, p, d, RoundHalfUp(r * p, d));
    HalfUpShiftAt(r, unit, p, d, RoundHalfUp(r, unit));
  }

  lemma Distribute(a: nat, b: nat, p: nat)
    ensures (2 * a + b) * p == 2 * (a * p) + b * p
  {
    MulAssoc(2, a, p);
    assert (2 * a + b) * p == 2 * a * p + b * p;
  }

  lemma ScaledComparison(x: nat, y: nat, p: nat)
    requires p > 0
    ensures x * p >= y * p <==> x >= y
  {
    if x >= y { MulLe(y, x, p); } else { MulLt(x, y, p); }
  }

  lemma HalfUpShiftAt(r: nat, unit: nat, p: nat, d: nat, k: nat)
    requires unit > 0 && p > 0 && d == unit * p
    ensures RoundHalfUp(r * p, d) >= k <==> RoundHalfUp(r, unit) >= k
  {
    HalfUpAtLeast(r * p, d, k);
    HalfUpAtLeast(r, unit, k);
    Distribute(r, unit, p);
    Distribute(k * unit, 0, p);
    MulAssoc(k, unit, p);
    ScaledComparison(2 * r + unit, 2 * (k * unit), p);
  }

  // ---------------------------------------------------------------- the reported figures

  /** The conversion rate in hundredths of a percent. Multiplying the 28-digit quotient by 100 only
      appends zeros, so it stays exact and the rate is the quotient rounded to four places. */
  function ConversionRate(converted: nat, dispatched: nat): nat {
    if dispatched == 0 then 0 else TwoStage(converted, dispatched, 4)
  }

  /** The average ticket in cents of a revenue in cents; none without conversions. */
  function AverageTicket(revenue: int, converted: nat): int
    requires converted > 0
  {
    var divisor := 100 * converted;
    if revenue >= 0 then TwoStage(revenue, divisor, 2) else -(TwoStage(-revenue, divisor, 2) as int)
  }

  /** The rate is the exact percentage rounded once. */
  lemma RateIsExactlyRounded(converted: nat, dispatched: nat)
    requires dispatched > 0 && converted < Pow10(23)
    ensures ConversionRate(converted, dispatched) == RoundHalfUp(converted * Pow10(4), dispatched)
  {
    TwoStageIsOneStage(converted, dispatched, 4);
  }

  lemma RoundedIsNearest(r: nat, n: nat, d: nat)
    requires d > 0 && r == RoundHalfUp(n, d)
    ensures IsNearest(r, n, d)
  {
    HalfUpIsNearest(n, d);
  }

  /** So it is within half a hundredth of a percent of the true rate. */
  lemma RateIsNearest(converted: nat, dispatched: nat)
    requires dispatched > 0 && converted < Pow10(23)
    ensures IsNearest(ConversionRate(converted, dispatched), converted * Pow10(4), dispatched)
  {
    RateIsExactlyRounded(converted, dispatched);
    RoundedIsNearest(ConversionRate(converted, dispatched), converted * Pow10(4), dispatched);
  }

  predicate FitsDigits(n: int, digits: nat) {
    (if n >= 0 then n else -n) < Pow10(digits)
  }

  lemma TwoStageOfAmount(amount: nat, converted: nat)
    requires converted > 0 && amount < Pow10(25)
    ensures TwoStage(amount, 100 * converted, 2) == RoundHalfUp(amount, converted)
  {
    TwoStageIsOneStage(amount, 100 * converted, 2);
    assert Pow10(2) == 100;
    HalfUpShift(amount, converted, 100, 100 * converted);
  }

  /** The average ticket is the exact average rounded once, halves away from zero on either side. */
  lemma TicketIsExactlyRounded(revenue: int, converted: nat)
    requires converted > 0 && FitsDigits(revenue, 25)
    ensures AverageTicket(revenue, converted) == RoundAwayFromZero(revenue, converted)
  {
    TwoStageOfAmount(if revenue >= 0 then revenue else -revenue, converted);
  }

  /** `rate` is the percentage c / t rounded once; zero when there is nothing to divide by. */
  predicate IsExactRate(rate: nat, c: nat, t: nat) {
    if t == 0 then rate == 0 else FitsDigits(c, 23) ==> rate == RoundHalfUp(c * Pow10(4), t)
  }

  /** `ticket` is revenue / c rounded once; none when there is nothing to divide by. */
  predicate IsExactTicket(ticket: Option<int>, revenue: int, c: nat) {
    if c == 0 then ticket.None?
    else ticket.Some? && (FitsDigits(revenue, 25) ==> ticket.value == RoundAwayFromZero(revenue, c))
  }

  /** Just above 10^23 conversions the two stages do differ: the exact rate of this input ends in
      45.4545..., its 28-digit quotient in 45.455. */
  lemma TwoStagesDifferBeyond()
    ensures TwoStage(110_000_000_000_000_000_000_005, 11, 4) == OneStage(110_000_000_000_000_000_000_005, 11, 4) + 1
  {
    var c, t := 110_000_000_000_000_000_000_005, 11;
    Pow10Values();
    assert ScaleUp(Pow10(27), c, t, 5) == 5;
    assert Scale(c, t) == 5;
  }

  lemma Pow10Values()
    ensures Pow10(4) == 10_000 && Pow10(5) == 100_000
    ensures Pow10(27) == 1_000_000_000_000_000_000_000_000_000
  {
    assert Pow10(9) == 1_000_000_000;
    Pow10Add(9, 9);
    Pow10Add(9, 18);
  }
}
