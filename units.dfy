/**
 * Temperatures: the provider reports Kelvin, the service shows degrees
 * Celsius rounded to two decimals (`types.Temperature.Celsius` and
 * `util.Round`), computed here on exact reals.
 */
module Units {

  /** `base` raised to a non-negative whole exponent. */
  function Power(base: real, e: nat): (r: real)
    requires base >= 1.0
    ensures r >= 1.0
  {
    if e == 0 then 1.0 else base * Power(base, e - 1)
  }

  /** `math.Pow10` for a non-negative exponent. */
  function Pow10(n: nat): (r: real)
    ensures r >= 1.0
  {
    Power(10.0, n)
  }

  /**
   * `math.Round`: the nearest integer, halves rounded away from zero.  The two
   * half-open windows pin the result down uniquely.
   */
  function RoundHalfAway(x: real): (r: int)
    ensures x >= 0.0 ==> x - 0.5 < r as real <= x + 0.5
    ensures x < 0.0 ==> x - 0.5 <= r as real < x + 0.5
  {
    if x >= 0.0 then (x + 0.5).Floor else -((-x + 0.5).Floor)
  }

  /** Rounding is symmetric around zero. */
  lemma RoundHalfAwayOdd(x: real)
    ensures RoundHalfAway(-x) == -RoundHalfAway(x)
  {
  }

  /**
   * `util.Round(n, precision)`: scaled by 10^precision, the result is the
   * whole number `math.Round` gives for the scaled input, so it keeps
   * `precision` decimal digits and is off by at most half a unit of the last.
   */
  function Round(n: real, precision: nat): (r: real)
    ensures r * Pow10(precision) == RoundHalfAway(n * Pow10(precision)) as real
    ensures -0.5 / Pow10(precision) <= r - n <= 0.5 / Pow10(precision)
  {
    Unscale(RoundHalfAway(n * Pow10(precision)) as real, n, Pow10(precision))
  }

  /** `k / m` for a `k` within half a unit of `n * m`: it scales back to `k`, and lies within `0.5 / m` of `n`. */
  function Unscale(k: real, n: real, m: real): (r: real)
    requires m > 0.0
    requires -0.5 <= k - n * m <= 0.5
    ensures r * m == k
    ensures -0.5 / m <= r - n <= 0.5 / m
  {
    var d := k - n * m;
    assert k / m - n == d / m;
    DivMonotone(-0.5, d, m);
    DivMonotone(d, 0.5, m);
    k / m
  }

  lemma DivMonotone(x: real, y: real, m: real)
    requires m > 0.0 && x <= y
    ensures x / m <= y / m
  {
    assert y / m - x / m == (y - x) / m;
  }

  /** Rounding an already rounded value changes nothing. */
  lemma RoundIdempotent(n: real, precision: nat)
    ensures Round(Round(n, precision), precision) == Round(n, precision)
  {
    var r := Round(n, precision);
    var k := RoundHalfAway(n * Pow10(precision));
    RoundWhole(k);
    assert r * Pow10(precision) == k as real;
    assert RoundHalfAway(r * Pow10(precision)) == k;
    MulCancel(Round(r, precision), r, Pow10(precision));
  }

  /** A whole number rounds to itself. */
  lemma RoundWhole(k: int)
    ensures RoundHalfAway(k as real) == k
  {
  }

  lemma MulCancel(a: real, b: real, m: real)
    requires m > 0.0 && a * m == b * m
    ensures a == b
  {
  }

  /** Absolute zero in degrees Celsius. */
  const AbsoluteZero: real := -273.15

  /**
   * `Temperature.Celsius()`: Kelvin to degrees Celsius, rounded to two
   * decimals: a whole number of hundredths, within half a hundredth of the
   * exact value.
   */
  function Celsius(kelvin: real): (c: real)
    ensures (c * 100.0).Floor as real == c * 100.0
    ensures c * 100.0 == RoundHalfAway((kelvin + AbsoluteZero) * 100.0) as real
    ensures -0.005 <= c - (kelvin + AbsoluteZero) <= 0.005
  {
    assert Pow10(2) == 100.0;
    Round(AbsoluteZero + kelvin, 2)
  }

  /** 300 K reads as 26.85 degrees. */
  lemma Celsius300()
    ensures Celsius(300.0) == 26.85
  {
    assert Pow10(2) == 100.0;
    assert (AbsoluteZero + 300.0) * 100.0 == 2685.0;
    assert RoundHalfAway(2685.0) == 2685;
  }
}
