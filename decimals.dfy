/**
 * The Python `Decimal` arithmetic the storefront relies on, over exact reals.
 *
 * Decimal values are exact and the amounts here stay far below the default
 * 28-digit context precision, so `+`, `-`, `*` and `/` are exact; the places
 * where Decimal does round are spelled out: `round(x, 2)` and `f"{x:.2f}"`
 * (half-even to two places) and `int(x)` (truncation toward zero).
 */
module Decimals {

  /** A value with at most two decimal places, as a `DecimalField(decimal_places=2)` holds. */
  predicate TwoPlaces(x: real) {
    (x * 100.0).Floor as real == x * 100.0
  }

  /** Rounding to an integer, ties to the even neighbour (Decimal's ROUND_HALF_EVEN). */
  function RoundHalfEven(x: real): (n: int)
    ensures -0.5 <= n as real - x <= 0.5
    ensures (n as real - x == 0.5 || x - n as real == 0.5) ==> n % 2 == 0
  {
    var f := x.Floor;
    var frac := x - f as real;
    if frac < 0.5 then f
    else if frac > 0.5 then f + 1
    else if f % 2 == 0 then f else f + 1
  }

  /** The nearest integer is the rounding; of two nearest, the even one is. */
  lemma RoundHalfEvenUnique(x: real, m: int)
    requires (-0.5 < m as real - x < 0.5) || ((m as real - x == 0.5 || x - m as real == 0.5) && m % 2 == 0)
    ensures RoundHalfEven(x) == m
  {
  }

  /** `round(x, 2)` on a Decimal. */
  function Round2(x: real): (r: real)
    ensures TwoPlaces(r)
    ensures -0.005 <= r - x <= 0.005
  {
    var n := RoundHalfEven(x * 100.0);
    WholeHundredths(n);
    n as real / 100.0
  }

  lemma WholeHundredths(n: int)
    ensures TwoPlaces(n as real / 100.0)
  {
    var r := n as real / 100.0;
    assert r * 100.0 == n as real;
  }

  /** Rounding a two-place value to two places gives it back. */
  lemma Round2OfTwoPlaces(x: real)
    requires TwoPlaces(x)
    ensures Round2(x) == x
  {
    var k := (x * 100.0).Floor;
    RoundHalfEvenUnique(x * 100.0, k);
  }

  /** `int(x)` on a Decimal: truncation toward zero. */
  function TruncateToInt(x: real): (n: int)
    ensures 0.0 <= x ==> 0 <= n && n as real <= x < n as real + 1.0
    ensures x < 0.0 ==> n <= 0 && n as real - 1.0 < x <= n as real
  {
    if x >= 0.0 then x.Floor else -((-x).Floor)
  }

  /** Truncating a whole number changes nothing; a two-place price times 100 is one. */
  lemma TruncateTwoPlacesTimes100(x: real)
    requires TwoPlaces(x)
    ensures TruncateToInt(x * 100.0) as real == x * 100.0
  {
    var k := (x * 100.0).Floor;
    if x * 100.0 < 0.0 {
      assert (-(x * 100.0)).Floor == -k;
    }
  }

  /** `x * (Decimal(1) - percent / Decimal(100))`: a price with a percentage taken off, unrounded. */
  function PercentOff(x: real, percent: real): (r: real)
    ensures 0.0 <= x && 0.0 <= percent <= 100.0 ==> 0.0 <= r <= x
    ensures percent == 0.0 ==> r == x
    ensures percent == 100.0 ==> r == 0.0
  {
    var factor := 1.0 - percent / 100.0;
    assert 0.0 <= percent <= 100.0 ==> 0.0 <= factor <= 1.0;
    assert 0.0 <= x && 0.0 <= factor <= 1.0 ==> 0.0 <= x * factor <= x * 1.0;
    x * factor
  }
}
