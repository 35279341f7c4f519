/**
 * `get_accuracy_color`: the hue (in degrees) of the title colour, green for a
 * perfect accuracy fading linearly to red at 0.6 m and beyond.
 */
module AccuracyColor {
  /** From this accuracy on, the colour is the worst one. */
  const MaxVal: real := 0.6
  /** Hue of the best accuracy (green). */
  const BestHue: real := 120.0
  /** Hue of the worst accuracy (red). */
  const WorstHue: real := 0.0

  function Hue(accuracy: real): (h: real)
    ensures accuracy > MaxVal ==> h == WorstHue
    ensures accuracy <= MaxVal ==> h == BestHue * (1.0 - accuracy / MaxVal)
    ensures 0.0 <= accuracy ==> WorstHue <= h <= BestHue
    ensures 0.0 <= accuracy ==> (h == WorstHue <==> accuracy >= MaxVal)
    ensures h == BestHue <==> accuracy == 0.0
  {
    if accuracy > MaxVal then WorstHue
    else BestHue - accuracy * (BestHue - WorstHue) / MaxVal
  }

  /** A worse accuracy never gives a greener hue, for every pair of accuracies. */
  lemma HueNonIncreasing(a: real, b: real)
    requires a <= b
    ensures Hue(b) <= Hue(a)
  {
  }

  /**
   * The hue never drops faster than the interpolating slope 120/0.6, on
   * either side of 0.6 or across it, so the two branches join continuously.
   */
  lemma HueContinuousAtMaxVal(a: real, b: real)
    requires a <= b
    ensures 0.0 <= Hue(a) - Hue(b) <= ((BestHue - WorstHue) / MaxVal) * (b - a)
  {
  }

  /** Example: halfway to 0.6 the hue is halfway between green and red, 60 degrees. */
  lemma HueHalfway()
    ensures Hue(0.3) == 60.0
  {
  }

  /** The fraction of the colour wheel passed on as `hue/360`. */
  function HueFraction(accuracy: real): (f: real)
    ensures 0.0 <= accuracy ==> 0.0 <= f <= 1.0 / 3.0
  {
    Hue(accuracy) / 360.0
  }
}
