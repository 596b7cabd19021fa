/** The zoom rule of the viewport: each press of a zoom button multiplies
    (zoom in) or divides (zoom out) the scale by 1.1, and the result is
    clamped to [0.1, 5]. */
module Zoom {

  const ZoomFactor: real := 1.1
  const MinScale: real := 0.1
  const MaxScale: real := 5.0

  predicate InRange(scale: real) {
    MinScale <= scale <= MaxScale
  }

  /** Math.max(0.1, Math.min(v, 5)). */
  function Clamp(v: real): (r: real)
    ensures InRange(r)
    ensures InRange(v) ==> r == v
    ensures v < MinScale ==> r == MinScale
    ensures v > MaxScale ==> r == MaxScale
  {
    if v > MaxScale then MaxScale
    else if v < MinScale then MinScale
    else v
  }

  /** The scale after one press of zoom in (zoomIn) or zoom out (!zoomIn). */
  function ZoomStep(prev: real, zoomIn: bool): (r: real)
    ensures InRange(r)
    ensures zoomIn && InRange(prev * ZoomFactor) ==> r == prev * ZoomFactor
    ensures !zoomIn && InRange(prev / ZoomFactor) ==> r * ZoomFactor == prev
  {
    Clamp(if zoomIn then prev * ZoomFactor else prev / ZoomFactor)
  }

  /** The scale after n presses of the same zoom button. */
  function ZoomRepeat(scale: real, zoomIn: bool, n: nat): real
    decreases n
  {
    if n == 0 then scale else ZoomRepeat(ZoomStep(scale, zoomIn), zoomIn, n - 1)
  }

  /** ZoomFactor raised to the n-th power. */
  function FactorPow(n: nat): (r: real)
    ensures r >= 1.0
  {
    if n == 0 then 1.0 else ZoomFactor * FactorPow(n - 1)
  }

  lemma ZoomOutAtMinimumStays()
    ensures ZoomStep(MinScale, false) == MinScale
  {
  }

  lemma ZoomInAtMaximumStays()
    ensures ZoomStep(MaxScale, true) == MaxScale
  {
  }

  /** Zoom in never makes the view smaller and zoom out never makes it
      larger, starting from any scale the viewport can hold. */
  lemma ZoomIsMonotone(scale: real)
    requires InRange(scale)
    ensures scale <= ZoomStep(scale, true)
    ensures ZoomStep(scale, false) <= scale
  {
  }

  /** A zoom in that did not hit the upper clamp is undone by one zoom out. */
  lemma ZoomInThenOutRestores(scale: real)
    requires InRange(scale) && scale * ZoomFactor <= MaxScale
    ensures ZoomStep(ZoomStep(scale, true), false) == scale
  {
  }

  /** A zoom out that did not hit the lower clamp is undone by one zoom in. */
  lemma ZoomOutThenInRestores(scale: real)
    requires InRange(scale) && MinScale <= scale / ZoomFactor
    ensures ZoomStep(ZoomStep(scale, false), true) == scale
  {
  }

  /** n unclamped zoom-ins multiply the scale by 1.1^n. */
  lemma {:induction false} ZoomInRepeatMultiplies(scale: real, n: nat)
    requires MinScale <= scale && scale * FactorPow(n) <= MaxScale
    ensures ZoomRepeat(scale, true, n) == scale * FactorPow(n)
    decreases n
  {
    if n > 0 {
      var up := scale * ZoomFactor;
      var rest := FactorPow(n - 1);
      assert scale * FactorPow(n) == up * rest by {
        assert FactorPow(n) == ZoomFactor * rest;
      }
      assert up * 1.0 <= up * rest;
      assert ZoomStep(scale, true) == up;
      ZoomInRepeatMultiplies(up, n - 1);
    }
  }

  /** n unclamped zoom-outs divide the scale by 1.1^n. */
  lemma {:induction false} ZoomOutRepeatDivides(scale: real, n: nat)
    requires scale <= MaxScale && MinScale <= scale / FactorPow(n)
    ensures ZoomRepeat(scale, false, n) == scale / FactorPow(n)
    decreases n
  {
    if n > 0 {
      var down := scale / ZoomFactor;
      var rest := FactorPow(n - 1);
      assert scale / FactorPow(n) == down / rest by {
        assert FactorPow(n) == ZoomFactor * rest;
      }
      assert down >= 0.0;
      assert down / rest <= down by {
        assert down == (down / rest) * rest;
        assert down / rest >= 0.0;
      }
      assert ZoomStep(scale, false) == down;
      ZoomOutRepeatDivides(down, n - 1);
    }
  }

  /** n zoom-ins followed by n zoom-outs give back the starting scale,
      provided the zoom-ins never reached the upper clamp. */
  lemma {:induction false} ZoomRoundTrip(scale: real, n: nat)
    requires MinScale <= scale && scale * FactorPow(n) <= MaxScale
    ensures ZoomRepeat(ZoomRepeat(scale, true, n), false, n) == scale
  {
    var pow := FactorPow(n);
    var top := scale * pow;
    ZoomInRepeatMultiplies(scale, n);
    assert ZoomRepeat(scale, true, n) == top;
    MulThenDivCancels(scale, pow);
    assert top / pow == scale;
    assert top <= MaxScale;
    assert MinScale <= top / FactorPow(n);
    ZoomOutRepeatDivides(top, n);
    assert ZoomRepeat(top, false, n) == scale;
  }

  lemma MulThenDivCancels(a: real, b: real)
    requires b != 0.0
    ensures (a * b) / b == a
  {
  }

  /** The round trip fails once the clamp is reached: from the top of the
      range one zoom in stays at 5, and the zoom out then lands on 5/1.1. */
  lemma ClampedRoundTripDrifts()
    ensures ZoomRepeat(ZoomRepeat(MaxScale, true, 1), false, 1) == MaxScale / ZoomFactor
    ensures ZoomRepeat(ZoomRepeat(MaxScale, true, 1), false, 1) != MaxScale
  {
  }
}
