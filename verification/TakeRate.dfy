/** The split of a price into platform commission and model share (src/billing/take-rate.ts).
    Prices are whole cents; a rate is any real number. */
module TakeRate {
  import opened Prelude

  datatype Split = Split(commission: int, modelShare: int)

  function ResolveTakeRate(override: Option<real>, fallback: real): real {
    match override
    case Some(rate) => rate
    case None => fallback
  }

  /** ROUND_HALF_UP of decimal.js: to the nearest integer, ties away from zero. */
  function RoundHalfUp(x: real): int {
    if x >= 0.0 then (x + 0.5).Floor else -((0.5 - x).Floor)
  }

  function ComputeSplit(price: int, rate: real): (s: Split)
    ensures s.commission + s.modelShare == price
  {
    var commission := RoundHalfUp(price as real * rate);
    Split(commission, price - commission)
  }

  ghost predicate IsRate(rate: real) {
    0.0 <= rate <= 1.0
  }

  /** Which integer the rounding picks: the nearest, and on a tie the one farther from zero. */
  lemma RoundingPicksNearest(x: real, n: int)
    ensures x >= 0.0 ==> (RoundHalfUp(x) == n <==> n as real - 0.5 <= x < n as real + 0.5)
    ensures x < 0.0 ==> (RoundHalfUp(x) == n <==> n as real - 0.5 < x <= n as real + 0.5)
  {
    if x < 0.0 {
      var y := 0.5 - x;
      assert y.Floor as real <= y < y.Floor as real + 1.0;
    }
  }

  /** The commission is the whole number of cents nearest to price times rate, ties going up; for a
      negative product ties go down. */
  lemma CommissionIsHalfUp(price: int, rate: real, n: int)
    ensures price as real * rate >= 0.0 ==>
      (ComputeSplit(price, rate).commission == n <==> n as real - 0.5 <= price as real * rate < n as real + 0.5)
    ensures price as real * rate < 0.0 ==>
      (ComputeSplit(price, rate).commission == n <==> n as real - 0.5 < price as real * rate <= n as real + 0.5)
    ensures ComputeSplit(price, rate).modelShare == price - ComputeSplit(price, rate).commission
  {
    RoundingPicksNearest(price as real * rate, n);
  }

  /** A tie, concretely: 30 percent of 1.25 is 0.375, and the platform gets 0.38. */
  lemma TieGoesToThePlatform()
    ensures ComputeSplit(125, 0.30) == Split(38, 87)
  {
  }

  /** Rounding is within half a unit, for every sign. */
  lemma RoundingError(x: real)
    ensures -0.5 <= RoundHalfUp(x) as real - x <= 0.5
  {
    if x < 0.0 {
      var y := 0.5 - x;
      assert y.Floor as real <= y < y.Floor as real + 1.0;
    }
  }

  lemma RoundingMonotone(x: real, y: real)
    requires x <= y
    ensures RoundHalfUp(x) <= RoundHalfUp(y)
  {
    if x < 0.0 && y < 0.0 {
      assert (0.5 - y).Floor <= (0.5 - x).Floor;
    }
  }

  /** The product of two ordered pairs of non-negative factors is ordered. */
  lemma ProductMonotone(a: real, b: real, x: real, y: real)
    requires 0.0 <= a <= b && 0.0 <= x <= y
    ensures a * x <= b * y
  {
    assert a * x <= a * y;
    assert a * y <= b * y;
  }

  /** The commission is a share of the price: never negative, never above it. */
  lemma CommissionWithinPrice(price: int, rate: real)
    requires price >= 0 && IsRate(rate)
    ensures 0 <= ComputeSplit(price, rate).commission <= price
    ensures 0 <= ComputeSplit(price, rate).modelShare <= price
  {
    var p := price as real;
    ProductMonotone(p, p, rate, 1.0);
    ProductMonotone(0.0, p, rate, rate);
    RoundingMonotone(0.0, p * rate);
    RoundingMonotone(p * rate, p);
  }

  /** A dearer call or a higher rate never yields a smaller commission. */
  lemma CommissionMonotone(p: int, q: int, r: real, s: real)
    requires 0 <= p <= q && 0.0 <= r <= s
    ensures ComputeSplit(p, r).commission <= ComputeSplit(q, s).commission
  {
    ProductMonotone(p as real, q as real, r, s);
    RoundingMonotone(p as real * r, q as real * s);
  }

  /** The rounding error of k minutes charged one by one at one rate is at most k/2 cents. */
  lemma MinutewiseError(price: int, rate: real, k: nat)
    ensures WithinHalfCents(k, k as real * ComputeSplit(price, rate).commission as real, k as real * (price as real * rate))
  {
    var x := price as real * rate;
    var c := ComputeSplit(price, rate).commission;
    RoundingError(x);
    ScaledError(k, c as real, x);
  }

  /** At most k halves of a cent apart. */
  ghost predicate WithinHalfCents(k: nat, x: real, y: real) {
    -(k as real / 2.0) <= x - y <= k as real / 2.0
  }

  lemma ScaledError(k: nat, c: real, x: real)
    requires -0.5 <= c - x <= 0.5
    ensures WithinHalfCents(k, k as real * c, k as real * x)
  {
    ProductBound(k as real, c - x);
    assert k as real * (c - x) == k as real * c - k as real * x;
  }

  lemma ProductBound(k: real, e: real)
    requires k >= 0.0 && -0.5 <= e <= 0.5
    ensures -(k / 2.0) <= k * e <= k / 2.0
  {
    assert k * (e - 0.5) <= 0.0;
    assert k * (e + 0.5) >= 0.0;
  }
}
