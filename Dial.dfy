/** The angle arithmetic that Regulator and ColorRegulator share: a pointer
    bearing is turned into a phased angle, snapped out of the dead zone at
    the bottom of the dial and scaled into the value domain; the indicator
    rotation and the bar extent map a value back onto the 280-degree arc. */
module Dial {

  /** ANGLE_RANGE: the drawn arc spans 280 degrees. */
  const AngleRange: real := 280.0
  /** The bearing offset `touchRotate` adds before reducing modulo 360. */
  const PhaseOffset: real := 230.0
  /** Phased angles above this snap to the minimum, those from the end of
      the arc up to it snap to the maximum. */
  const DeadZoneSplit: real := 320.0
  const FullTurn: real := 360.0

  /** Java's `%` on doubles: the remainder of a division whose quotient is
      truncated toward zero, so it takes the sign of `x`. */
  function JavaRemainder(x: real, m: real): real
    requires m > 0.0
  {
    x - m * TruncatedQuotient(x, m) as real
  }

  function TruncatedQuotient(x: real, m: real): int
    requires m > 0.0
  {
    var q := x / m;
    if q >= 0.0 then q.Floor else -((-q).Floor)
  }

  /** `(theta + 230) % 360`: the bearing in the widget's own frame, where 0
      is the start of the arc and 280 its end. */
  function PhaseAngle(theta: real): (r: real)
    ensures -PhaseOffset <= theta ==> 0.0 <= r < FullTurn
    ensures theta < -PhaseOffset ==> -FullTurn < r <= 0.0
  {
    JavaRemainder(theta + PhaseOffset, FullTurn)
  }

  /** The dead-zone branches of `touchRotate`, in the code's order. */
  function SnapAngle(angle: real): (r: real)
    ensures 0.0 <= angle < FullTurn ==> 0.0 <= r <= AngleRange
    ensures !(AngleRange < angle < FullTurn) ==> r == angle
  {
    if angle > DeadZoneSplit && angle < FullTurn then 0.0
    else if angle <= DeadZoneSplit && angle > AngleRange then AngleRange
    else angle
  }

  /** `angleStep = ANGLE_RANGE / (max - min)`. A zero divisor gives Java's
      positive infinity, written here as `Infinite`. */
  datatype AngleStep = Finite(degreesPerUnit: real) | Infinite

  function AngleStepOf(min: real, max: real): (r: AngleStep)
    ensures r.Infinite? <==> min == max
    ensures r.Finite? ==> r.degreesPerUnit * (max - min) == AngleRange
  {
    if max - min == 0.0 then Infinite else Finite(AngleRange / (max - min))
  }

  /** `angle / angleStep + min`; a finite angle divided by infinity is 0. */
  function TouchValue(angle: real, step: AngleStep, min: real): (r: real)
    requires step != Finite(0.0)
    ensures step.Finite? ==> (r - min) * step.degreesPerUnit == angle
    ensures step.Infinite? ==> r == min
  {
    match step
    case Finite(s) => angle / s + min
    case Infinite => min
  }

  /** The bar arc extent of `drawBar`: `(v - min) * angleStep`. */
  function BarExtent(v: real, min: real, step: real): (r: real)
    ensures v == min ==> r == 0.0
    ensures min <= v && 0.0 <= step ==> 0.0 <= r
  {
    (v - min) * step
  }

  /** The indicator rotation of `rotate`: `(v - min) * angleStep - ANGLE_RANGE * 0.5`. */
  function IndicatorRotation(v: real, min: real, step: real): (r: real)
    ensures v == min ==> r == -AngleRange * 0.5
    ensures min <= v && 0.0 <= step ==> -AngleRange * 0.5 <= r
  {
    (v - min) * step - AngleRange * 0.5
  }

  /** A bearing in [0,360) is rotated by 230 degrees: it wraps exactly once,
      at bearing 130, and the phased angle is again in [0,360). */
  lemma PhaseAngleOfBearing(theta: real)
    requires 0.0 <= theta < FullTurn
    ensures PhaseAngle(theta) == if theta < 130.0 then theta + PhaseOffset else theta - 130.0
    ensures 0.0 <= PhaseAngle(theta) < FullTurn
  {
    var q := (theta + PhaseOffset) / FullTurn;
    assert q * FullTurn == theta + PhaseOffset;
    if theta < 130.0 {
      assert 0.0 <= q < 1.0;
      assert q.Floor == 0;
    } else {
      assert 1.0 <= q < 2.0;
      assert q.Floor == 1;
    }
  }

  /** The snapping rule, both directions: phased angles in (320,360) become
      0, those in (280,320] become 280, and every other angle passes
      through. On [0,360) the snapped angle lies on the arc [0,280]. */
  lemma SnapAngleCases(angle: real)
    ensures SnapAngle(angle) == 0.0 && angle != 0.0 <==> DeadZoneSplit < angle < FullTurn
    ensures SnapAngle(angle) == AngleRange && angle != AngleRange <==> AngleRange < angle <= DeadZoneSplit
    ensures !(AngleRange < angle < FullTurn) ==> SnapAngle(angle) == angle
    ensures 0.0 <= angle < FullTurn ==> 0.0 <= SnapAngle(angle) <= AngleRange
  {
  }

  /** Every bearing in [0,360) lands on the arc after phasing and snapping. */
  lemma SnappedBearingOnArc(theta: real)
    requires 0.0 <= theta < FullTurn
    ensures 0.0 <= SnapAngle(PhaseAngle(theta)) <= AngleRange
  {
    PhaseAngleOfBearing(theta);
    SnapAngleCases(PhaseAngle(theta));
  }

  /** For a proper domain the step is finite and positive and spans the
      arc exactly; for a collapsed one it is infinite. */
  lemma AngleStepSpansArc(min: real, max: real)
    ensures max > min ==>
      && AngleStepOf(min, max).Finite?
      && AngleStepOf(min, max).degreesPerUnit > 0.0
      && AngleStepOf(min, max).degreesPerUnit * (max - min) == AngleRange
    ensures AngleStepOf(min, max) == Infinite <==> min == max
  {
  }

  /** A snapped angle on the arc yields a value already inside [min,max]:
      the start of the arc gives min and its end gives max. A collapsed
      domain (min == max) gives min for every angle. */
  lemma TouchValueInDomain(angle: real, min: real, max: real)
    requires 0.0 <= angle <= AngleRange
    requires min <= max
    ensures AngleStepOf(min, max) != Finite(0.0)
    ensures min <= TouchValue(angle, AngleStepOf(min, max), min) <= max
    ensures angle == 0.0 ==> TouchValue(angle, AngleStepOf(min, max), min) == min
    ensures angle == AngleRange ==> TouchValue(angle, AngleStepOf(min, max), min) == max
  {
    if max > min {
      var d := max - min;
      var s := AngleRange / d;
      assert s * d == AngleRange;
      var t := angle / s;
      assert t * s == angle;
      assert t == angle * d / AngleRange by {
        assert t * AngleRange == t * (s * d) == (t * s) * d == angle * d;
      }
      assert 0.0 <= angle * d <= AngleRange * d;
    }
  }

  /** The indicator rotation undoes the touch mapping: a value obtained
      from a snapped angle rotates the indicator to that angle less 140. */
  lemma RotationAfterTouch(angle: real, min: real, max: real)
    requires min < max
    ensures IndicatorRotation(TouchValue(angle, AngleStepOf(min, max), min), min, AngleStepOf(min, max).degreesPerUnit)
      == angle - AngleRange * 0.5
  {
    var s := AngleRange / (max - min);
    assert s != 0.0;
    assert (angle / s) * s == angle;
  }

  /** And the touch mapping undoes the rotation: feeding the angle that
      the indicator shows for `v` back through the touch mapping gives `v`. */
  lemma TouchAfterRotation(v: real, min: real, max: real)
    requires min < max
    ensures TouchValue(IndicatorRotation(v, min, AngleStepOf(min, max).degreesPerUnit) + AngleRange * 0.5,
                       AngleStepOf(min, max), min) == v
  {
    var s := AngleRange / (max - min);
    assert s != 0.0;
    assert ((v - min) * s) / s == v - min;
  }

  /** The indicator sits at -140 degrees for min, 0 at the midpoint and
      +140 for max, and within [-140,140] for every value in between; the
      bar extent is the rotation shifted by 140, so it lies in [0,280]. */
  lemma IndicatorRotationOnArc(v: real, min: real, max: real)
    requires min < max
    ensures var s := AngleStepOf(min, max).degreesPerUnit;
      && IndicatorRotation(min, min, s) == -AngleRange * 0.5
      && IndicatorRotation((min + max) / 2.0, min, s) == 0.0
      && IndicatorRotation(max, min, s) == AngleRange * 0.5
      && (min <= v <= max ==> -AngleRange * 0.5 <= IndicatorRotation(v, min, s) <= AngleRange * 0.5)
      && (min <= v <= max ==> 0.0 <= BarExtent(v, min, s) <= AngleRange)
      && BarExtent(v, min, s) == IndicatorRotation(v, min, s) + AngleRange * 0.5
  {
    var d := max - min;
    var s := AngleRange / d;
    assert s * d == AngleRange;
    assert ((min + max) / 2.0 - min) * s == (d / 2.0) * s == AngleRange / 2.0;
    if min <= v <= max {
      assert 0.0 <= (v - min) * s <= d * s;
    }
  }

  /** Worked points on the default domain [0,100]: bearing 270 phases to
      140 and reads 50, bearing 90 phases to 320 and snaps to the maximum,
      bearing 91 phases to 321 and snaps to the minimum. */
  lemma DefaultDomainTouchPoints()
    ensures TouchValue(SnapAngle(PhaseAngle(270.0)), AngleStepOf(0.0, 100.0), 0.0) == 50.0
    ensures TouchValue(SnapAngle(PhaseAngle(90.0)), AngleStepOf(0.0, 100.0), 0.0) == 100.0
    ensures TouchValue(SnapAngle(PhaseAngle(91.0)), AngleStepOf(0.0, 100.0), 0.0) == 0.0
  {
    PhaseAngleOfBearing(270.0);
    PhaseAngleOfBearing(90.0);
    PhaseAngleOfBearing(91.0);
  }
}
