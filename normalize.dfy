/** `normalize_metric`: piecewise-linear mapping of a raw value onto 0–100. */
module Normalize {
  import opened Wrappers

  /** The two `ValueError`s raised on bad parameters. */
  datatype NormalizeError = RangeNotIncreasing | IdealBandReversed

  function Max(a: real, b: real): real { if a >= b then a else b }
  function Min(a: real, b: real): real { if a <= b then a else b }

  /** `max(min_value, min(max_value, raw_value))` */
  function Clip(raw: real, minValue: real, maxValue: real): (v: real)
    requires minValue < maxValue
    ensures minValue <= v <= maxValue
    ensures minValue <= raw <= maxValue ==> v == raw
    ensures raw <= minValue ==> v == minValue
    ensures raw >= maxValue ==> v == maxValue
  {
    Max(minValue, Min(maxValue, raw))
  }

  predicate ValidParameters(minValue: real, maxValue: real, idealMin: real, idealMax: real) {
    minValue < maxValue && idealMin <= idealMax
  }

  /** A ramp `100 * num / den` with `0 <= num < den` lies in [0, 100). */
  lemma RampBelowFull(num: real, den: real)
    requires 0.0 <= num < den
    ensures 0.0 <= 100.0 * num / den < 100.0
  {
    var q := num / den;
    assert q * den == num;
    assert 0.0 <= q < 1.0;
    assert 100.0 * num / den == 100.0 * q;
  }

  /**
   * Errors on a non-increasing range or a reversed ideal band; otherwise the
   * score lies in [0, 100] and is 100 exactly when the clipped value lies in
   * the ideal band, bounds included. The two degenerate branches of the source
   * (ideal bound equal to the range bound) cannot be reached once the value is
   * clipped; `assert false` records that.
   */
  function NormalizeMetric(raw: real, minValue: real, maxValue: real, idealMin: real, idealMax: real)
    : (r: Result<real, NormalizeError>)
    ensures r.Failure? <==> !ValidParameters(minValue, maxValue, idealMin, idealMax)
    ensures r.Failure? ==> r.error == (if minValue >= maxValue then RangeNotIncreasing else IdealBandReversed)
    ensures r.Success? ==> 0.0 <= r.value <= 100.0
    ensures r.Success? ==>
              (r.value == 100.0 <==> idealMin <= Clip(raw, minValue, maxValue) <= idealMax)
  {
    if minValue >= maxValue then Failure(RangeNotIncreasing)
    else if idealMin > idealMax then Failure(IdealBandReversed)
    else
      var v := Clip(raw, minValue, maxValue);
      if idealMin <= v <= idealMax then Success(100.0)
      else if v < idealMin then
        if idealMin == minValue then assert false; Success(0.0)
        else
          RampBelowFull(v - minValue, idealMin - minValue);
          var score := 100.0 * (v - minValue) / (idealMin - minValue);
          Success(Max(0.0, Min(100.0, score)))
      else
        if maxValue == idealMax then assert false; Success(0.0)
        else
          RampBelowFull(maxValue - v, maxValue - idealMax);
          var score := 100.0 * (maxValue - v) / (maxValue - idealMax);
          Success(Max(0.0, Min(100.0, score)))
  }

  /** Below the ideal band the score rises linearly from 0 at `min_value`. */
  lemma NormalizeBelowBand(raw: real, minValue: real, maxValue: real, idealMin: real, idealMax: real)
    requires ValidParameters(minValue, maxValue, idealMin, idealMax)
    requires minValue <= raw <= maxValue && raw < idealMin
    ensures NormalizeMetric(raw, minValue, maxValue, idealMin, idealMax)
            == Success(100.0 * (raw - minValue) / (idealMin - minValue))
  {
    RampBelowFull(raw - minValue, idealMin - minValue);
  }

  /** Above the ideal band the score falls linearly to 0 at `max_value`. */
  lemma NormalizeAboveBand(raw: real, minValue: real, maxValue: real, idealMin: real, idealMax: real)
    requires ValidParameters(minValue, maxValue, idealMin, idealMax)
    requires minValue <= raw <= maxValue && raw > idealMax
    ensures NormalizeMetric(raw, minValue, maxValue, idealMin, idealMax)
            == Success(100.0 * (maxValue - raw) / (maxValue - idealMax))
  {
    RampBelowFull(maxValue - raw, maxValue - idealMax);
  }

  /** A value at or below `min_value` scores 0 when the ideal band starts above it. */
  lemma NormalizeAtFloor(raw: real, minValue: real, maxValue: real, idealMin: real, idealMax: real)
    requires ValidParameters(minValue, maxValue, idealMin, idealMax)
    requires raw <= minValue < idealMin
    ensures NormalizeMetric(raw, minValue, maxValue, idealMin, idealMax) == Success(0.0)
  {
    NormalizeBelowBand(minValue, minValue, maxValue, idealMin, idealMax);
  }

  /** A value at or above `max_value` scores 0 when the ideal band ends below it. */
  lemma NormalizeAtCeiling(raw: real, minValue: real, maxValue: real, idealMin: real, idealMax: real)
    requires ValidParameters(minValue, maxValue, idealMin, idealMax)
    requires raw >= maxValue > idealMax
    ensures NormalizeMetric(raw, minValue, maxValue, idealMin, idealMax) == Success(0.0)
  {
    NormalizeAboveBand(maxValue, minValue, maxValue, idealMin, idealMax);
  }

  lemma RampMonotone(a: real, b: real, den: real)
    requires a <= b && den > 0.0
    ensures 100.0 * a / den <= 100.0 * b / den
  {
    assert 100.0 * a / den == (100.0 / den) * a;
    assert 100.0 * b / den == (100.0 / den) * b;
  }

  /** Up to the top of the ideal band the score never decreases as the raw value grows. */
  lemma NormalizeMonotoneBelow(a: real, b: real, minValue: real, maxValue: real, idealMin: real, idealMax: real)
    requires ValidParameters(minValue, maxValue, idealMin, idealMax)
    requires a <= b <= idealMax
    ensures NormalizeMetric(a, minValue, maxValue, idealMin, idealMax).value
            <= NormalizeMetric(b, minValue, maxValue, idealMin, idealMax).value
  {
    var va := Clip(a, minValue, maxValue);
    var vb := Clip(b, minValue, maxValue);
    assert va <= vb;
    if vb < idealMin {
      RampBelowFull(va - minValue, idealMin - minValue);
      RampBelowFull(vb - minValue, idealMin - minValue);
      RampMonotone(va - minValue, vb - minValue, idealMin - minValue);
    }
  }

  /** From the bottom of the ideal band on the score never increases as the raw value grows. */
  lemma NormalizeMonotoneAbove(a: real, b: real, minValue: real, maxValue: real, idealMin: real, idealMax: real)
    requires ValidParameters(minValue, maxValue, idealMin, idealMax)
    requires idealMin <= a <= b
    ensures NormalizeMetric(a, minValue, maxValue, idealMin, idealMax).value
            >= NormalizeMetric(b, minValue, maxValue, idealMin, idealMax).value
  {
    var va := Clip(a, minValue, maxValue);
    var vb := Clip(b, minValue, maxValue);
    assert va <= vb;
    if va > idealMax {
      RampBelowFull(maxValue - va, maxValue - idealMax);
      RampBelowFull(maxValue - vb, maxValue - idealMax);
      RampMonotone(maxValue - vb, maxValue - va, maxValue - idealMax);
    }
  }
}
