/**
 * The asymmetric price band shared by the trained forecaster and the
 * plan assembler's table fallback: expected = round(p), low = round(0.95 p),
 * high = round(1.08 p), in INR per quintal.
 */
module PriceBand {

  const Unit: string := "INR/quintal"

  /** A price forecast in whole currency units. */
  datatype Forecast = Forecast(expected: int, low: int, high: int, unit: string)

  /**
   * Python's rule for round(x): `n` is a nearest integer to `x`, and on a
   * tie the even one of the two.
   */
  predicate RoundsTo(x: real, n: int) {
    x - 0.5 <= n as real <= x + 0.5 && (n as real - x == 0.5 || x - n as real == 0.5 ==> n % 2 == 0)
  }

  /** The rule leaves no choice: at most one integer satisfies it. */
  lemma RoundsToUnique(x: real, n: int, m: int)
    requires RoundsTo(x, n) && RoundsTo(x, m)
    ensures n == m
  {
  }

  /** Python's round to a whole number. */
  function Round(x: real): (n: int)
    ensures RoundsTo(x, n)
  {
    var f := x.Floor;
    var d := x - f as real;
    if d < 0.5 then f
    else if d > 0.5 then f + 1
    else if f % 2 == 0 then f
    else f + 1
  }

  /** Rounding never reverses an order. */
  lemma RoundMonotone(x: real, y: real)
    requires x <= y
    ensures Round(x) <= Round(y)
  {
  }

  lemma RoundWhole(n: int)
    ensures Round(n as real) == n
  {
  }

  /** The band around a point prediction `p`. */
  function Band(p: real): (f: Forecast)
    ensures f.unit == Unit
    ensures RoundsTo(p, f.expected)
    ensures RoundsTo(0.95 * p, f.low)
    ensures RoundsTo(1.08 * p, f.high)
  {
    Forecast(Round(p), Round(0.95 * p), Round(1.08 * p), Unit)
  }

  /** For a non-negative point prediction the band is ordered. */
  lemma BandOrdered(p: real)
    requires p >= 0.0
    ensures Band(p).low <= Band(p).expected <= Band(p).high
  {
    RoundMonotone(0.95 * p, p);
    RoundMonotone(p, 1.08 * p);
  }

  /** From 20 units upwards the band is strictly ordered. */
  lemma BandStrictlyOrdered(p: real)
    requires p >= 20.0
    ensures Band(p).low < Band(p).expected < Band(p).high
  {
    if p == 20.0 {
      RoundWhole(19);
      RoundWhole(20);
      assert 0.95 * p == 19.0 && 1.08 * p == 21.6;
    } else {
      assert Round(0.95 * p) as real <= 0.95 * p + 0.5 < p - 0.5 <= Round(p) as real;
      assert Round(1.08 * p) as real >= 1.08 * p - 0.5 > p + 0.5 >= Round(p) as real;
    }
  }

  /** Below that, strictness can fail: a prediction of 1 gives low = expected = 1. */
  lemma BandNotStrictForSmallPrices()
    ensures Band(1.0).low == Band(1.0).expected == 1
  {
  }
}
