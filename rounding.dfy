/**
 * Decimal rounding of the calculation engine.  The engine quantizes every
 * percentage-scale and 0-4-scale result with `quantize(Decimal('0.01'),
 * ROUND_HALF_UP)`: to two decimals, with ties rounded away from zero.
 * Decimals are modelled as exact rationals (`real`).
 */
module Rounding {

  /** `x` is a whole number of hundredths: a value `quantize` leaves unchanged. */
  predicate OnCentGrid(x: real) {
    (x * 100.0).Floor as real == x * 100.0
  }

  /**
   * `x.quantize(Decimal('0.01'), ROUND_HALF_UP)`: the nearest multiple of
   * 0.01, where a value exactly half-way is rounded away from zero.
   */
  function RoundHalfUp2(x: real): (r: real)
    ensures OnCentGrid(r)
    ensures 0.0 <= x ==> x - 0.005 < r <= x + 0.005
    ensures x < 0.0 ==> x - 0.005 <= r < x + 0.005
  {
    if 0.0 <= x then
      var n := (x * 100.0 + 0.5).Floor;
      CentsOnGrid(n);
      n as real / 100.0
    else
      var n := (-x * 100.0 + 0.5).Floor;
      CentsOnGrid(-n);
      -(n as real / 100.0)
  }

  /** A whole number of cents lies on the cent grid. */
  lemma CentsOnGrid(n: int)
    ensures OnCentGrid(n as real / 100.0)
    ensures -(n as real / 100.0) == (-n) as real / 100.0
  {
    assert n as real / 100.0 * 100.0 == n as real;
  }

  /**
   * At most one whole number of cents lies in a half-open interval of width
   * 0.01, so `RoundHalfUp2`'s contract (and `_weighted_average`'s) fixes the
   * result, tie included.
   */
  lemma {:induction false} OneCentValuePerInterval(x: real, a: real, b: real)
    requires OnCentGrid(a) && OnCentGrid(b)
    requires (x - 0.005 < a <= x + 0.005 && x - 0.005 < b <= x + 0.005) ||
             (x - 0.005 <= a < x + 0.005 && x - 0.005 <= b < x + 0.005)
    ensures a == b
  {
    var ka, kb := (a * 100.0).Floor, (b * 100.0).Floor;
    assert -1.0 < a * 100.0 - b * 100.0 < 1.0;
    assert ka == kb;
  }

  /** Rounding is symmetric about zero, as ROUND_HALF_UP rounds ties away from zero. */
  lemma RoundHalfUp2Odd(x: real)
    ensures RoundHalfUp2(-x) == -RoundHalfUp2(x)
  {
  }

  /** A value already on the cent grid is returned unchanged (quantize is idempotent). */
  lemma RoundHalfUp2OnGrid(x: real)
    requires OnCentGrid(x)
    ensures RoundHalfUp2(x) == x
  {
    var k := (x * 100.0).Floor;
    if 0.0 <= x {
      assert x * 100.0 + 0.5 == k as real + 0.5;
      assert (x * 100.0 + 0.5).Floor == k;
    } else {
      assert -x * 100.0 + 0.5 == (-k) as real + 0.5;
      assert (-x * 100.0 + 0.5).Floor == -k;
    }
  }

  /** Rounding preserves order. */
  lemma RoundHalfUp2Monotone(x: real, y: real)
    requires x <= y
    ensures RoundHalfUp2(x) <= RoundHalfUp2(y)
  {
    if 0.0 <= x {
      assert (x * 100.0 + 0.5).Floor <= (y * 100.0 + 0.5).Floor;
    } else if y < 0.0 {
      assert (-y * 100.0 + 0.5).Floor <= (-x * 100.0 + 0.5).Floor;
    }
  }

  /**
   * Rounding to cents and then dividing by 25 and rounding again gives the
   * same as dividing the unrounded value by 25 and rounding once: the double
   * rounding of the weighted level-4 methods is never observable.
   */
  lemma {:induction false} RoundThenQuarterScale(x: real)
    ensures RoundHalfUp2(RoundHalfUp2(x) / 25.0) == RoundHalfUp2(x / 25.0)
  {
    if 0.0 <= x {
      RoundThenQuarterScaleNonNegative(x);
    } else {
      RoundThenQuarterScaleNonNegative(-x);
      RoundHalfUp2Odd(x);
      RoundHalfUp2Odd(x / 25.0);
      RoundHalfUp2Odd(RoundHalfUp2(x) / 25.0);
      assert -x / 25.0 == -(x / 25.0);
      assert RoundHalfUp2(-x) / 25.0 == -(RoundHalfUp2(x) / 25.0);
    }
  }

  lemma {:induction false} RoundThenQuarterScaleNonNegative(x: real)
    requires 0.0 <= x
    ensures RoundHalfUp2(RoundHalfUp2(x) / 25.0) == RoundHalfUp2(x / 25.0)
  {
    var n := (x * 100.0 + 0.5).Floor;
    var m := (x / 25.0 * 100.0 + 0.5).Floor;
    assert x / 25.0 * 100.0 == 4.0 * x;
    assert m as real <= 4.0 * x + 0.5 < m as real + 1.0;
    assert 25.0 * m as real - 12.0 <= x * 100.0 + 0.5 < 25.0 * m as real + 13.0;
    assert 25 * m - 12 <= n <= 25 * m + 12;
    var rounded := n as real / 100.0;
    assert RoundHalfUp2(x) == rounded;
    assert 0.0 <= rounded;
    assert rounded / 25.0 * 100.0 + 0.5 == n as real / 25.0 + 0.5;
    assert m as real <= n as real / 25.0 + 0.5 < m as real + 1.0;
    assert (rounded / 25.0 * 100.0 + 0.5).Floor == m;
  }
}
