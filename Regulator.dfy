/** The value domain of the `Regulator` widget: the properties `minValue`,
    `maxValue`, `value`, `decimals` and `unit`, whose overridden setters
    clamp their argument and recompute the derived fields `angleStep` and
    `formatString`, and the pointer handler `touchRotate`. */
module RegulatorControl {
  import opened Clamping
  import opened Dial

  /** The decimal digit character for `d`. */
  function DigitChar(d: int): (c: char)
    requires 0 <= d <= 9
    ensures '0' <= c <= '9' && c as int - '0' as int == d
  {
    ('0' as int + d) as char
  }

  /** The decimal digits of `n`, most significant first, without leading
      zeros. */
  function Digits(n: nat): (s: string)
    ensures |s| >= 1
    ensures forall i :: 0 <= i < |s| ==> '0' <= s[i] <= '9'
    ensures n > 0 ==> s[0] != '0'
  {
    if n < 10 then [DigitChar(n)] else Digits(n / 10) + [DigitChar(n % 10)]
  }

  /** `Integer.toString`: an optional minus sign, then the digits. */
  function IntegerToString(n: int): (r: string)
    ensures |r| >= 1 && (r[0] == '-' <==> n < 0)
  {
    if n < 0 then "-" + Digits(-n) else Digits(n)
  }

  /** The value a string of decimal digits denotes. */
  function DigitsValue(s: string): nat
    requires forall i :: 0 <= i < |s| ==> '0' <= s[i] <= '9'
  {
    if s == [] then 0 else DigitsValue(s[..|s| - 1]) * 10 + (s[|s| - 1] as int - '0' as int)
  }

  /** Reading the digits back gives the number: `Digits` is the decimal
      representation of `n`. */
  lemma {:induction false} DigitsRoundTrip(n: nat)
    ensures DigitsValue(Digits(n)) == n
  {
    if n >= 10 {
      DigitsRoundTrip(n / 10);
      var s := Digits(n);
      assert s[..|s| - 1] == Digits(n / 10);
    }
  }

  /** A single decimal place count prints as one digit. */
  lemma SmallIntegerToString(d: int)
    requires 0 <= d <= 9
    ensures IntegerToString(d) == [DigitChar(d)]
  {
  }

  /** `"%." + decimals + "f" + unit`, the pattern handed to `String.format`. */
  function FormatString(decimals: int, unit: string): (r: string)
    ensures |r| >= 4 + |unit| && r[..2] == "%."
    ensures r[|r| - |unit| - 1] == 'f' && r[|r| - |unit|..] == unit
  {
    "%." + IntegerToString(decimals) + "f" + unit
  }

  /** The unit as the `unit` setter stores it: a lone percent sign is
      escaped as "%%" for the formatter; every other unit is kept. */
  function StoredUnit(u: string): (r: string)
    ensures u == "%" ==> r == "%%"
    ensures u != "%" ==> r == u
    ensures r != "%"
  {
    if u == "%" then "%%" else u
  }

  class Regulator {
    var minValue: real
    var maxValue: real
    var value: real
    var decimals: int
    var unit: string
    var formatString: string
    var angleStep: AngleStep

    /** What every setter preserves. `value` is deliberately absent: the
        `minValue` and `maxValue` setters do not re-clamp it. */
    ghost predicate Valid()
      reads this
    {
      && -DoubleMax <= minValue <= maxValue <= DoubleMax
      && angleStep == AngleStepOf(minValue, maxValue)
      && 0 <= decimals <= 2
      && unit != "%"
      && formatString == FormatString(decimals, unit)
    }

    /** The initial property values 0, 100, 0, 0 and "". */
    constructor ()
      ensures Valid()
      ensures minValue == 0.0 && maxValue == 100.0 && value == 0.0
      ensures decimals == 0 && unit == "" && formatString == "%.0f"
      ensures angleStep == Finite(2.8)
    {
      minValue := 0.0;
      maxValue := 100.0;
      value := 0.0;
      decimals := 0;
      unit := "";
      formatString := FormatString(0, "");
      angleStep := AngleStepOf(0.0, 100.0);
    }

    /** Stores the argument clamped to at most the current maximum, then
        recomputes the step; `value` is left where it was. */
    method SetMinValue(v: real)
      requires Valid()
      modifies this
      ensures Valid()
      ensures minValue == Clamp(-DoubleMax, maxValue, v) && minValue <= maxValue
      ensures maxValue == old(maxValue) && value == old(value)
      ensures decimals == old(decimals) && unit == old(unit) && formatString == old(formatString)
      ensures angleStep == AngleStepOf(minValue, maxValue)
    {
      minValue := Clamp(-DoubleMax, maxValue, v);
      angleStep := AngleStepOf(minValue, maxValue);
    }

    /** Stores the argument clamped to at least the current minimum, then
        recomputes the step; `value` is left where it was. */
    method SetMaxValue(v: real)
      requires Valid()
      modifies this
      ensures Valid()
      ensures maxValue == Clamp(minValue, DoubleMax, v) && minValue <= maxValue
      ensures minValue == old(minValue) && value == old(value)
      ensures decimals == old(decimals) && unit == old(unit) && formatString == old(formatString)
      ensures angleStep == AngleStepOf(minValue, maxValue)
    {
      maxValue := Clamp(minValue, DoubleMax, v);
      angleStep := AngleStepOf(minValue, maxValue);
    }

    /** Stores the argument clamped into [minValue, maxValue]. */
    method SetValue(v: real)
      requires Valid()
      modifies this
      ensures Valid()
      ensures value == Clamp(minValue, maxValue, v)
      ensures minValue <= value <= maxValue
      ensures minValue <= v <= maxValue ==> value == v
      ensures minValue == old(minValue) && maxValue == old(maxValue) && angleStep == old(angleStep)
      ensures decimals == old(decimals) && unit == old(unit) && formatString == old(formatString)
    {
      ClampInRange(minValue, maxValue, v);
      value := Clamp(minValue, maxValue, v);
    }

    /** Stores the decimal count clamped into [0,2] and rebuilds the format
        string from it and the stored unit. */
    method SetDecimals(d: int)
      requires Valid()
      modifies this
      ensures Valid()
      ensures decimals == ClampInt(0, 2, d)
      ensures formatString == "%." + [DigitChar(decimals)] + "f" + unit
      ensures minValue == old(minValue) && maxValue == old(maxValue) && value == old(value)
      ensures angleStep == old(angleStep) && unit == old(unit)
    {
      decimals := ClampInt(0, 2, d);
      formatString := FormatString(decimals, unit);
      SmallIntegerToString(decimals);
    }

    /** Stores the unit, escaping a lone "%", and rebuilds the format string
        from the current decimal count and the stored unit. */
    method SetUnit(u: string)
      requires Valid()
      modifies this
      ensures Valid()
      ensures unit == StoredUnit(u)
      ensures formatString == "%." + [DigitChar(decimals)] + "f" + unit
      ensures minValue == old(minValue) && maxValue == old(maxValue) && value == old(value)
      ensures angleStep == old(angleStep) && decimals == old(decimals)
    {
      unit := StoredUnit(u);
      formatString := FormatString(decimals, unit);
      SmallIntegerToString(decimals);
    }

    /** The pointer handler after the bearing `theta` has been computed:
        phase, snap out of the dead zone, scale and store through
        `SetValue`. The scaled value is already in range, so the clamp in
        `SetValue` never changes it. */
    method TouchRotate(theta: real)
      requires Valid()
      requires 0.0 <= theta < FullTurn
      modifies this
      ensures Valid()
      ensures AngleStepOf(minValue, maxValue) != Finite(0.0)
      ensures value == TouchValue(SnapAngle(PhaseAngle(theta)), angleStep, minValue)
      ensures minValue <= value <= maxValue
      ensures minValue == old(minValue) && maxValue == old(maxValue) && angleStep == old(angleStep)
      ensures decimals == old(decimals) && unit == old(unit) && formatString == old(formatString)
    {
      var angle := PhaseAngle(theta);
      SnappedBearingOnArc(theta);
      angle := SnapAngle(angle);
      TouchValueInDomain(angle, minValue, maxValue);
      SetValue(TouchValue(angle, angleStep, minValue));
    }
  }

  /** Dragging a fresh regulator to bearings 270, 90 and 91 shows 50, the
      maximum 100 and the minimum 0. */
  method TouchOnDefaultDomain() returns (at270: real, at90: real, at91: real)
    ensures at270 == 50.0 && at90 == 100.0 && at91 == 0.0
  {
    var r := new Regulator();
    DefaultDomainTouchPoints();
    r.TouchRotate(270.0);
    at270 := r.value;
    r.TouchRotate(90.0);
    at90 := r.value;
    r.TouchRotate(91.0);
    at91 := r.value;
  }

  /** Lowering the maximum below the current value leaves the value where
      it was, above the new maximum; only the next `SetValue` pulls it back. */
  method MaxBelowValueKeepsValue() returns (valueAfterMax: real, newMax: real, valueAfterSet: real)
    ensures newMax == 20.0 && valueAfterMax == 50.0 && valueAfterMax > newMax
    ensures valueAfterSet == 20.0
  {
    var r := new Regulator();
    r.SetValue(50.0);
    r.SetMaxValue(20.0);
    valueAfterMax, newMax := r.value, r.maxValue;
    r.SetValue(r.value);
    valueAfterSet := r.value;
  }

  /** The stored format string always names zero, one or two decimals and
      never carries an unescaped lone percent sign as its unit. */
  lemma FormatStringShape(decimals: int, unit: string)
    requires 0 <= decimals <= 2 && unit != "%"
    ensures FormatString(decimals, unit) in {"%.0f" + unit, "%.1f" + unit, "%.2f" + unit}
  {
    SmallIntegerToString(decimals);
    var pattern := if decimals == 0 then "%.0f" else if decimals == 1 then "%.1f" else "%.2f";
    assert "%." + IntegerToString(decimals) + "f" == pattern;
    assert FormatString(decimals, unit) == pattern + unit;
  }
}
