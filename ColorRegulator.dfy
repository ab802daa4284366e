/** The `ColorRegulator` widget: a fixed [0,1] domain for the property
    `targetValue`, the property `targetColor` with its null rule, the
    pointer handler `touchRotate`, the indicator update in `rotate`, and
    the conical bar gradient built by `reorderStops` from the stops given
    to `setGradientStops`. */
module ColorRegulatorControl {
  import opened Wrappers
  import opened Clamping
  import opened Dial
  import opened GradientStops

  /** A color as `Color.rgb` builds it: three channels and an opacity. */
  datatype Color = Color(red: int, green: int, blue: int, opacity: real)

  const Black: Color := Color(0, 0, 0, 1.0)
  const Yellow: Color := Color(255, 255, 0, 1.0)
  const Red: Color := Color(255, 0, 0, 1.0)
  const Magenta: Color := Color(255, 0, 255, 1.0)
  const Blue: Color := Color(0, 0, 255, 1.0)
  const Cyan: Color := Color(0, 255, 255, 1.0)
  const Green: Color := Color(0, 255, 0, 1.0)

  /** MIN_VALUE and MAX_VALUE. */
  const MinValue: real := 0.0
  const MaxValue: real := 1.0

  /** The hue wheel the widget starts with. */
  const DefaultStops: seq<Stop<Color>> := [
    Stop(0.0, Yellow), Stop(0.125, Red), Stop(0.375, Magenta), Stop(0.5, Blue),
    Stop(0.625, Cyan), Stop(0.875, Green), Stop(1.0, Yellow)]

  /** The `targetColor` setter's rule: a null color is stored as black. */
  function StoredColor(c: Option<Color>): (r: Color)
    ensures c == None ==> r == Black
    ensures c.Some? ==> r == c.value
  {
    if c.None? then Black else c.value
  }

  /** With the fixed domain the touch value is the snapped angle over 280,
      which lies in [0,1]; the middle of the arc, 140, gives one half. */
  lemma TouchValueOnUnitDomain(angle: real)
    requires 0.0 <= angle <= AngleRange
    ensures AngleStepOf(MinValue, MaxValue) == Finite(AngleRange)
    ensures TouchValue(angle, AngleStepOf(MinValue, MaxValue), MinValue) == angle / AngleRange
    ensures 0.0 <= TouchValue(angle, AngleStepOf(MinValue, MaxValue), MinValue) <= 1.0
    ensures angle == 140.0 ==> TouchValue(angle, AngleStepOf(MinValue, MaxValue), MinValue) == 0.5
  {
    TouchValueInDomain(angle, MinValue, MaxValue);
  }

  /** On the fixed domain the indicator turns `v * 280 - 140` degrees,
      within [-140,140] for v in [0,1], and the bar drawn for MAX_VALUE
      spans the whole arc. */
  lemma UnitIndicatorFormulas(v: real)
    ensures IndicatorRotation(v, MinValue, AngleRange) == v * AngleRange - AngleRange * 0.5
    ensures 0.0 <= v <= 1.0 ==> -AngleRange * 0.5 <= IndicatorRotation(v, MinValue, AngleRange) <= AngleRange * 0.5
    ensures BarExtent(v, MinValue, AngleRange) == v * AngleRange
    ensures BarExtent(MaxValue, MinValue, AngleRange) == AngleRange
  {
    IndicatorRotationOnArc(v, MinValue, MaxValue);
  }

  /** The default stops as a fraction-to-color map. */
  const DefaultStopMap: map<real, Color> := map[
    0.0 := Yellow, 0.125 := Red, 0.375 := Magenta, 0.5 := Blue,
    0.625 := Cyan, 0.875 := Green, 1.0 := Yellow]

  /** The default fractions in ascending order. */
  const DefaultFractions: seq<real> := [0.0, 0.125, 0.375, 0.5, 0.625, 0.875, 1.0]

  lemma DefaultStopsCollapse()
    ensures StopMap(DefaultStops) == DefaultStopMap
  {
    var s := DefaultStops;
    assert s[..1][..0] == [];
    assert StopMap(s[..1]) == map[0.0 := Yellow];
    assert s[..2][..1] == s[..1];
    assert StopMap(s[..2]) == map[0.0 := Yellow, 0.125 := Red];
    assert s[..3][..2] == s[..2];
    assert s[..4][..3] == s[..3];
    assert s[..5][..4] == s[..4];
    assert s[..6][..5] == s[..5];
    assert s[..6] == s[..|s| - 1];
    assert StopMap(s[..4]) == map[0.0 := Yellow, 0.125 := Red, 0.375 := Magenta, 0.5 := Blue];
    assert StopMap(s[..6]) == map[0.0 := Yellow, 0.125 := Red, 0.375 := Magenta, 0.5 := Blue,
                                  0.625 := Cyan, 0.875 := Green];
  }

  lemma DefaultStopsPadded()
    ensures DefaultStopMap != map[] && Padded(DefaultStopMap) == DefaultStopMap
  {
    var m := DefaultStopMap;
    assert 0.0 in m;
    GreatestIs(m.Keys, 1.0);
    LeastIs(m.Keys, 0.0);
  }

  lemma DefaultStopsAscending()
    ensures Ascending(DefaultStopMap.Keys) == DefaultFractions
  {
    var fr := DefaultFractions;
    forall x ensures x in fr <==> x in DefaultStopMap.Keys { }
    AscendingUnique(DefaultStopMap.Keys, fr);
  }

  /** The re-phased offsets of the default fractions. */
  lemma DefaultFractionsRephased()
    ensures RephasedStops(DefaultStopMap, DefaultFractions) == [
      Stop(0.611, Yellow), Stop(0.70825, Red), Stop(0.90275, Magenta), Stop(0.0, Blue),
      Stop(0.09725, Cyan), Stop(0.29175, Green), Stop(0.389, Yellow)]
  {
    var out := RephasedStops(DefaultStopMap, DefaultFractions);
    assert out[0] == Stop(0.611, Yellow);
    assert out[1] == Stop(0.70825, Red);
    assert out[2] == Stop(0.90275, Magenta);
    assert out[3] == Stop(0.0, Blue);
    assert out[4] == Stop(0.09725, Cyan);
    assert out[5] == Stop(0.29175, Green);
    assert out[6] == Stop(0.389, Yellow);
  }

  /** The default stops are distinct and already cover 0.0 and 1.0, so
      re-phasing only moves them: the lower half to [0.611,1), the upper
      half to [0,0.389], in the input order. */
  lemma DefaultStopsReordered()
    ensures ReorderedStops(DefaultStops) == [
      Stop(0.611, Yellow), Stop(0.70825, Red), Stop(0.90275, Magenta), Stop(0.0, Blue),
      Stop(0.09725, Cyan), Stop(0.29175, Green), Stop(0.389, Yellow)]
  {
    DefaultStopsCollapse();
    DefaultStopsPadded();
    DefaultStopsAscending();
    DefaultFractionsRephased();
    NoOffsetsOnlyWhenEmpty(DefaultStops);
  }

  class ColorRegulator {
    var targetValue: real
    var targetColor: Color
    /** `ANGLE_RANGE / (MAX_VALUE - MIN_VALUE)`, fixed at construction. */
    const angleStep: AngleStep
    /** The angle of the indicator's rotate transform. */
    var indicatorAngle: real
    /** The stops handed to the value-to-color lookup. */
    var lookupStops: seq<Stop<Color>>
    /** The stops of the conical bar gradient. */
    var barStops: seq<Stop<Color>>

    ghost predicate Valid()
      reads this
    {
      && MinValue <= targetValue <= MaxValue
      && angleStep == AngleStepOf(MinValue, MaxValue)
    }

    /** The bar gradient is the re-phased form of the stops the lookup
        holds. A failed `setGradientStops` breaks this. */
    ghost predicate GradientsAgree()
      reads this
    {
      lookupStops != [] && barStops == ReorderedStops(lookupStops)
    }

    /** Value 0, color yellow, indicator at the start of the arc, and the
        default stops re-phased for the bar. */
    constructor ()
      ensures Valid() && GradientsAgree()
      ensures targetValue == 0.0 && targetColor == Yellow && indicatorAngle == -AngleRange * 0.5
      ensures angleStep == Finite(AngleRange)
      ensures lookupStops == DefaultStops && barStops == ReorderedStops(DefaultStops)
    {
      targetValue := 0.0;
      targetColor := Yellow;
      angleStep := AngleStepOf(MinValue, MaxValue);
      indicatorAngle := -AngleRange * 0.5;
      var reordered := ReorderStops(DefaultStops);
      lookupStops := DefaultStops;
      barStops := reordered.value;
    }

    /** Stores the argument clamped into [0,1]. The program's `targetValue`
        listener, which then calls `rotate` and so turns the indicator and
        changes the color, is not part of this model: the indicator and the
        color stay as they were here, and a caller models the listener by
        invoking `Rotate` afterwards. */
    method SetTargetValue(v: real)
      requires Valid()
      modifies this
      ensures Valid()
      ensures targetValue == Clamp(MinValue, MaxValue, v)
      ensures MinValue <= v <= MaxValue ==> targetValue == v
      ensures targetColor == old(targetColor) && indicatorAngle == old(indicatorAngle)
      ensures lookupStops == old(lookupStops) && barStops == old(barStops)
    {
      ClampInRange(MinValue, MaxValue, v);
      targetValue := Clamp(MinValue, MaxValue, v);
    }

    /** Stores the color, or black for a null color. */
    method SetTargetColor(c: Option<Color>)
      modifies this
      ensures targetColor == StoredColor(c)
      ensures targetValue == old(targetValue) && indicatorAngle == old(indicatorAngle)
      ensures lookupStops == old(lookupStops) && barStops == old(barStops)
    {
      targetColor := if c.None? then Black else c.value;
    }

    /** The pointer handler after the bearing `theta` has been computed:
        phase, snap, divide by the step and store through
        `SetTargetValue`. As there, the `targetValue` listener that would
        go on to call `rotate` is not modelled, so the indicator and the
        color are left unchanged. */
    method TouchRotate(theta: real)
      requires Valid()
      requires 0.0 <= theta < FullTurn
      modifies this
      ensures Valid()
      ensures targetValue == SnapAngle(PhaseAngle(theta)) / AngleRange
      ensures MinValue <= targetValue <= MaxValue
      ensures targetColor == old(targetColor) && indicatorAngle == old(indicatorAngle)
      ensures lookupStops == old(lookupStops) && barStops == old(barStops)
    {
      var angle := PhaseAngle(theta);
      SnappedBearingOnArc(theta);
      angle := SnapAngle(angle);
      TouchValueOnUnitDomain(angle);
      SetTargetValue(TouchValue(angle, angleStep, MinValue));
    }

    /** Turns the indicator to the value and takes the color the lookup
        gives for it (`lookedUp`, None for null) as the target color. */
    method Rotate(v: real, lookedUp: Option<Color>)
      requires Valid()
      modifies this
      ensures Valid()
      ensures indicatorAngle == IndicatorRotation(v, MinValue, angleStep.degreesPerUnit)
      ensures targetColor == StoredColor(lookedUp)
      ensures targetValue == old(targetValue)
      ensures lookupStops == old(lookupStops) && barStops == old(barStops)
    {
      indicatorAngle := (v - MinValue) * angleStep.degreesPerUnit - AngleRange * 0.5;
      SetTargetColor(lookedUp);
    }

    /** Hands the stops to the lookup, then rebuilds the bar gradient from
        them. An empty list makes `reorderStops` throw after the lookup has
        already been given it; that outcome is `false`, with the bar
        gradient left as it was and no longer matching the lookup. */
    method SetGradientStops(stops: seq<Stop<Color>>) returns (completed: bool)
      requires Valid()
      modifies this
      ensures Valid()
      ensures completed <==> stops != []
      ensures lookupStops == stops
      ensures completed ==> barStops == ReorderedStops(stops) && GradientsAgree()
      ensures !completed ==> barStops == old(barStops) && !GradientsAgree()
      ensures targetValue == old(targetValue) && targetColor == old(targetColor)
      ensures indicatorAngle == old(indicatorAngle)
    {
      lookupStops := stops;
      var reordered := ReorderStops(stops);
      if reordered.None? {
        return false;
      }
      barStops := reordered.value;
      completed := true;
    }
  }

  /** A fresh widget touched at bearing 270 (phased angle 140) reads one
      half, at bearing 90 (snapped to the end of the arc) one, and at
      bearing 91 (snapped to the start) zero. */
  method TouchOnFixedDomain() returns (at270: real, at90: real, at91: real)
    ensures at270 == 0.5 && at90 == 1.0 && at91 == 0.0
  {
    var r := new ColorRegulator();
    PhaseAngleOfBearing(270.0);
    PhaseAngleOfBearing(90.0);
    PhaseAngleOfBearing(91.0);
    r.TouchRotate(270.0);
    at270 := r.targetValue;
    r.TouchRotate(90.0);
    at90 := r.targetValue;
    r.TouchRotate(91.0);
    at91 := r.targetValue;
  }
}
