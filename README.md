# Regulators: value domain, dial arithmetic and gradient re-phasing

This project models the logic inside two JavaFX rotary widgets, `Regulator` and
`ColorRegulator`, and proves properties of that logic in Dafny.

- **`Regulator` value domain.** The widget has the properties `minValue`,
  `maxValue`, `value`, `decimals` and `unit`. The setters of `minValue`,
  `maxValue`, `value` and `decimals` clamp their argument. The `unit` setter
  clamps nothing: it only escapes a lone "%" as "%%". The `minValue` and
  `maxValue` setters then recompute `angleStep`. The `decimals` and `unit`
  setters rebuild `formatString`. This is modelled
  as the class `RegulatorControl.Regulator`. It keeps the source's lazy
  clamping: changing a bound does not re-clamp `value`.
- **Dial arithmetic (module `Dial`).** The two widgets share it:
  - `touchRotate` adds 230 to a pointer bearing, reduces it with Java's `%`,
    snaps it out of the dead zone and scales it into the value domain;
  - `rotate` computes the indicator rotation `(v - min) * angleStep - 140`;
  - `drawBar` computes the bar extent `(v - min) * angleStep`.
- **`clamp` (module `Clamping`).** Both widgets use it. The lower bound is
  compared first.
- **`reorderStops` (module `GradientStops`).** The gradient stops are put in a
  `HashMap`, so a later stop with an equal offset replaces an earlier one. The
  keys go into a `TreeSet`. The set is padded up to 1.0 and down to 0.0 with
  the colors of the extreme stops. Each fraction `f` is re-phased to
  `f * 0.778 - 0.389`, plus 1 when that is negative, which for fractions in
  [0,1] lands in [0,1). The stops are emitted in
  ascending fraction order. The method `ReorderStops` works step by step, as
  the source does, and is proved equal to the function `ReorderedStops`. The
  lemmas about that function are:
  - de-duplication, last stop wins;
  - padding;
  - the output length;
  - the first and last stop;
  - the two ascending runs the output forms.
- **`ColorRegulator` (class `ColorRegulatorControl.ColorRegulator`).** It has:
  - the fixed domain [0,1] with `angleStep = 280`;
  - the `targetValue` and `targetColor` setters, where a null color is stored
    as black;
  - its `touchRotate` and `rotate`;
  - `setGradientStops`, which rebuilds the bar gradient through
    `reorderStops`.

Modelling choices:
- Doubles are modelled as `real`.
- A Java `null` color is `None`.
- The pointer bearing is an input in [0,360). The pointer-to-bearing step is
  left out.
- The value-to-color lookup that `rotate` consults is external code. Its
  answer is a parameter.
- `angleStep` for `min == max` is Java's positive infinity. It is written as
  the `Infinite` case of `Dial.AngleStep`. The touch value it yields is `min`,
  because a finite angle divided by infinity is 0.
- An empty stop list makes `TreeSet.last()` throw. That outcome is `None`
  from `ReorderStops`, and `false` from `SetGradientStops`.
- `Color` is the model's own stand-in for `javafx.scene.paint.Color`. A
  concrete type is needed because the code names particular colors: BLACK for
  a null `targetColor`, and YELLOW, RED, MAGENTA, BLUE, CYAN and GREEN in the
  default stops. The 0-255 integer channels are how the model tells those
  constants apart. JavaFX stores doubles in [0,1], and no modelled operation
  looks at a channel.

Behaviour of the code worth knowing, which the model keeps:
- Dead zone: a phased angle in (320,360) becomes 0 (the minimum) and one in
  (280,320] becomes 280 (the maximum).
- Re-clamping: the `minValue` and `maxValue` setters do not re-clamp `value`.
  A value outside the new bounds stays there until the next `setValue`.
- Output order: `reorderStops` emits its stops in ascending input-fraction
  order, not sorted by the new offset. For fractions in [0,1] the new offsets
  form two ascending runs.

## Model

| member | source | states |
|---|---|---|
| Clamping.Clamp | src/main/java/eu/hansolo/fx/regulators/Regulator.java:259-263 | below `lo` gives `lo`; above `hi`, but not below `lo`, gives `hi`; inside the bounds gives `v` unchanged |
| Clamping.ClampInt | src/main/java/eu/hansolo/fx/regulators/Regulator.java:111 | the `Integer` instantiation of `clamp` picks exactly what the real-valued clamp picks |
| Clamping.ClampInRange | src/main/java/eu/hansolo/fx/regulators/ColorRegulator.java:302-306 | with `lo <= hi` the result lies in [lo, hi] |
| Clamping.ClampCrossedBounds | src/main/java/eu/hansolo/fx/regulators/Regulator.java:333 | with `hi < lo` the result is `lo` below `lo` and `hi` everywhere else |
| Clamping.ClampIdempotent | src/main/java/eu/hansolo/fx/regulators/Regulator.java:259-263 | clamping twice into ordered bounds equals clamping once |
| Clamping.ClampShadowOffset | src/main/java/eu/hansolo/fx/regulators/Regulator.java:333 | the inner-shadow offset `clamp(-1, -2, -size*0.004)` is -1 for sizes above 250 and -2 otherwise |
| Dial.PhaseAngle | src/main/java/eu/hansolo/fx/regulators/Regulator.java:282 | `(theta + 230) % 360` through `JavaRemainder`, Java's `%` with a quotient truncated toward zero: the result is in [0,360) when theta + 230 is non-negative and in (-360,0] otherwise, the sign of the dividend; `Dial.PhaseAngleOfBearing` gives its exact value for bearings in [0,360) |
| Dial.SnapAngle | src/main/java/eu/hansolo/fx/regulators/Regulator.java:283-287 | on [0,360) the snapped angle is on the arc [0,280], and outside (280,360) the angle passes through unchanged; `Dial.SnapAngleCases` states both snapping intervals in both directions |
| Dial.AngleStepOf | src/main/java/eu/hansolo/fx/regulators/Regulator.java:91 | `ANGLE_RANGE / (max - min)` is infinite exactly when min == max, and otherwise spans the arc: step * (max - min) == 280; the same rule is applied at lines 99 and 136 and at src/main/java/eu/hansolo/fx/regulators/ColorRegulator.java:123; `Dial.AngleStepSpansArc` adds that it is positive for max > min |
| Dial.TouchValue | src/main/java/eu/hansolo/fx/regulators/Regulator.java:288 | `angle / angleStep + min` is the value whose distance from min, times the step, is the angle; an infinite step gives min; the same formula is at src/main/java/eu/hansolo/fx/regulators/ColorRegulator.java:323; `Dial.TouchValueInDomain` bounds it by [min,max] |
| Dial.BarExtent | src/main/java/eu/hansolo/fx/regulators/Regulator.java:305 | the bar extent `(v - min) * angleStep` is 0 at min and non-negative above min for a non-negative step; the same formula is at src/main/java/eu/hansolo/fx/regulators/ColorRegulator.java:338; `Dial.IndicatorRotationOnArc` bounds it by [0,280] in range |
| Dial.IndicatorRotation | src/main/java/eu/hansolo/fx/regulators/Regulator.java:295 | the indicator rotation `(v - min) * angleStep - ANGLE_RANGE * 0.5` is -140 at min and at least -140 above it; the same formula is at src/main/java/eu/hansolo/fx/regulators/ColorRegulator.java:329; `Dial.IndicatorRotationOnArc` gives 0 at the midpoint, 140 at max, and the tie to the bar extent |
| Dial.PhaseAngleOfBearing | src/main/java/eu/hansolo/fx/regulators/Regulator.java:282 | `(theta + 230) % 360` under Java's truncating `%` is theta+230 below bearing 130 and theta-130 from it, always in [0,360) |
| Dial.SnapAngleCases | src/main/java/eu/hansolo/fx/regulators/Regulator.java:283-287 | phased angles in (320,360) snap to 0 and those in (280,320] snap to 280 (both directions); all others pass through; the result is on [0,280] |
| Dial.SnappedBearingOnArc | src/main/java/eu/hansolo/fx/regulators/Regulator.java:282-287 | every bearing in [0,360) lands on the arc [0,280] after phasing and snapping |
| Dial.AngleStepSpansArc | src/main/java/eu/hansolo/fx/regulators/Regulator.java:91 | for max > min the step is finite, positive and step*(max-min) == 280; it is infinite exactly when min == max |
| Dial.TouchValueInDomain | src/main/java/eu/hansolo/fx/regulators/Regulator.java:282-288 | an angle on the arc scales to a value in [min,max]; angle 0 gives min and angle 280 gives max |
| Dial.RotationAfterTouch | src/main/java/eu/hansolo/fx/regulators/Regulator.java:288-295 | the indicator rotation of a touched value is the snapped angle less 140 |
| Dial.TouchAfterRotation | src/main/java/eu/hansolo/fx/regulators/Regulator.java:288-295 | the touch mapping applied to the indicator's angle plus 140 gives back the value |
| Dial.IndicatorRotationOnArc | src/main/java/eu/hansolo/fx/regulators/Regulator.java:295-305 | the rotation is -140 at min, 0 at the midpoint and 140 at max, and within [-140,140] in range; the bar extent is in [0,280] and equals the rotation plus 140 |
| Dial.DefaultDomainTouchPoints | src/main/java/eu/hansolo/fx/regulators/Regulator.java:282-288 | on [0,100], bearing 270 gives 50, bearing 90 gives 100 and bearing 91 gives 0 |
| RegulatorControl.IntegerToString | src/main/java/eu/hansolo/fx/regulators/Regulator.java:112 | `Integer.toString`: never empty, and starts with '-' exactly for a negative number; `RegulatorControl.SmallIntegerToString` gives the single digit for a decimal count in [0,9] |
| RegulatorControl.FormatString | src/main/java/eu/hansolo/fx/regulators/Regulator.java:135 | the pattern `"%." + Integer.toString(decimals) + "f" + unit` begins with "%." and ends with 'f' followed by the unit; the setters at lines 112 and 121 build the same pattern, and `RegulatorControl.FormatStringShape` narrows it to "%.0f", "%.1f" or "%.2f" |
| RegulatorControl.Digits | src/main/java/eu/hansolo/fx/regulators/Regulator.java:112 | `Integer.toString` digits: at least one, all decimal, no leading zero |
| RegulatorControl.DigitsRoundTrip | src/main/java/eu/hansolo/fx/regulators/Regulator.java:112 | reading the digits back gives the number |
| RegulatorControl.StoredUnit | src/main/java/eu/hansolo/fx/regulators/Regulator.java:120 | a unit of exactly "%" is stored as "%%", any other unit unchanged; the stored unit is never "%" |
| RegulatorControl.FormatStringShape | src/main/java/eu/hansolo/fx/regulators/Regulator.java:112-135 | a stored format string is "%.0f", "%.1f" or "%.2f" followed by the stored unit |
| RegulatorControl.Regulator.constructor | src/main/java/eu/hansolo/fx/regulators/Regulator.java:85-140 | initial state 0/100/0, 0 decimals, empty unit, "%.0f", step 2.8, with the class invariant |
| RegulatorControl.Regulator.SetMinValue | src/main/java/eu/hansolo/fx/regulators/Regulator.java:88-95 | stores clamp(-MAX_VALUE, max, v) so that min <= max, recomputes the step and leaves `value` and the rest unchanged |
| RegulatorControl.Regulator.SetMaxValue | src/main/java/eu/hansolo/fx/regulators/Regulator.java:96-103 | stores clamp(min, MAX_VALUE, v) so that min <= max, recomputes the step and leaves `value` and the rest unchanged |
| RegulatorControl.Regulator.SetValue | src/main/java/eu/hansolo/fx/regulators/Regulator.java:104-106 | stores clamp(min, max, v): in range afterwards, `v` itself when already in range, bounds and step unchanged |
| RegulatorControl.Regulator.SetDecimals | src/main/java/eu/hansolo/fx/regulators/Regulator.java:110-114 | stores the count clamped into [0,2] and the format string "%." + digit + "f" + stored unit |
| RegulatorControl.Regulator.SetUnit | src/main/java/eu/hansolo/fx/regulators/Regulator.java:119-123 | stores the escaped unit and rebuilds the format string from the current decimals |
| RegulatorControl.Regulator.TouchRotate | src/main/java/eu/hansolo/fx/regulators/Regulator.java:273-289 | the value becomes the scaled snapped phase angle, already inside [min,max]; nothing else changes |
| RegulatorControl.TouchOnDefaultDomain | src/main/java/eu/hansolo/fx/regulators/Regulator.java:273-289 | a fresh regulator touched at bearings 270, 90 and 91 reads 50, 100 and 0 |
| RegulatorControl.MaxBelowValueKeepsValue | src/main/java/eu/hansolo/fx/regulators/Regulator.java:96-106 | lowering the maximum to 20 below a value of 50 leaves the value at 50; the next `setValue` pulls it to 20 |
| GradientStops.Least | src/main/java/eu/hansolo/fx/regulators/ColorRegulator.java:290 | `first()` of the sorted set is a member no greater than any member |
| GradientStops.Greatest | src/main/java/eu/hansolo/fx/regulators/ColorRegulator.java:286 | `last()` of the sorted set is a member no smaller than any member |
| GradientStops.Ascending | src/main/java/eu/hansolo/fx/regulators/ColorRegulator.java:294 | the iteration order of the sorted set is strictly increasing and holds exactly its members |
| GradientStops.AscendingUnique | src/main/java/eu/hansolo/fx/regulators/ColorRegulator.java:294 | any strictly increasing sequence holding exactly the set's members is that iteration order |
| GradientStops.StopMap | src/main/java/eu/hansolo/fx/regulators/ColorRegulator.java:281-282 | the keys of the filled map are exactly the input offsets |
| GradientStops.StopMapLastWins | src/main/java/eu/hansolo/fx/regulators/ColorRegulator.java:281-282 | an offset's entry holds the color of the last stop carrying that offset |
| GradientStops.NoOffsetsOnlyWhenEmpty | src/main/java/eu/hansolo/fx/regulators/ColorRegulator.java:285-286 | the sorted set is empty exactly when the stop list is empty, the case where `last()` throws |
| GradientStops.Padded | src/main/java/eu/hansolo/fx/regulators/ColorRegulator.java:286-293 | the two padding steps on the stop map; its properties are carried by `GradientStops.PaddedEntries`, `GradientStops.PaddedUnitInterval` and `GradientStops.PaddedEndColors` |
| GradientStops.Rephase | src/main/java/eu/hansolo/fx/regulators/ColorRegulator.java:295-296 | `fraction * 0.778 - 0.389`, plus 1 when negative, lies in [0,1) for a fraction in [0,1]; `GradientStops.RephaseDocumentedPoints` and `GradientStops.RephaseHalves` give its fixed points and its two monotone halves |
| GradientStops.PadAndRephase | src/main/java/eu/hansolo/fx/regulators/ColorRegulator.java:286-298 | one output stop per padded fraction; `GradientStops.PaddedRephasedEnds` and `GradientStops.PaddedRephasedRuns` give its ends and its two ascending runs |
| GradientStops.ReorderedStops | src/main/java/eu/hansolo/fx/regulators/ColorRegulator.java:272-300 | the list `reorderStops` returns for a non-empty input has one stop per padded distinct offset; `GradientStops.ReorderedLength`, `GradientStops.ReorderedEnds` and `GradientStops.ReorderedRuns` carry its length, ends and runs |
| GradientStops.RephasedStops | src/main/java/eu/hansolo/fx/regulators/ColorRegulator.java:294-298 | one stop per fraction, in the fractions' order, at the re-phased offset with the map's color |
| GradientStops.FillStopMap | src/main/java/eu/hansolo/fx/regulators/ColorRegulator.java:281-282 | the `forEach` loop builds exactly `StopMap(stops)` |
| GradientStops.PadEnds | src/main/java/eu/hansolo/fx/regulators/ColorRegulator.java:285-293 | the two padding steps on map and set give `Padded(m)` and keep the set equal to the map's keys |
| GradientStops.EmitRephased | src/main/java/eu/hansolo/fx/regulators/ColorRegulator.java:294-298 | the closing loop emits exactly `RephasedStops` |
| GradientStops.ReorderStops | src/main/java/eu/hansolo/fx/regulators/ColorRegulator.java:272-300 | fails (None) exactly for an empty list; otherwise returns `ReorderedStops(stops)` |
| GradientStops.PaddedEntries | src/main/java/eu/hansolo/fx/regulators/ColorRegulator.java:286-293 | existing entries keep their colors; 1.0 is added, with the highest fraction's color, exactly when the highest is below 1; 0.0 is added, with the lowest fraction's color, exactly when the lowest is above 0 |
| GradientStops.PaddedUnitInterval | src/main/java/eu/hansolo/fx/regulators/ColorRegulator.java:286-293 | for keys in [0,1] the padded keys stay in [0,1] and run from exactly 0.0 to exactly 1.0 |
| GradientStops.PaddedEndColors | src/main/java/eu/hansolo/fx/regulators/ColorRegulator.java:286-293 | for keys in [0,1] the padded 0.0 entry has the lowest key's color and the 1.0 entry the highest key's |
| GradientStops.AscendingEnds | src/main/java/eu/hansolo/fx/regulators/ColorRegulator.java:285-294 | the iteration order starts at `first()` and ends at `last()` |
| GradientStops.RephaseDocumentedPoints | src/main/java/eu/hansolo/fx/regulators/ColorRegulator.java:273-277 | 0.0 re-phases to 0.611, 0.5 to 0.0 and 1.0 to 0.389 |
| GradientStops.RephaseHalves | src/main/java/eu/hansolo/fx/regulators/ColorRegulator.java:295-296 | on [0,1], fractions below 0.5 go to [0.611,1) and the rest to [0,0.389], each half in increasing order |
| GradientStops.ReorderedLength | src/main/java/eu/hansolo/fx/regulators/ColorRegulator.java:284-298 | the output length is the number of distinct offsets plus one per padding entry |
| GradientStops.RephasedEnds | src/main/java/eu/hansolo/fx/regulators/ColorRegulator.java:294-298 | for a map running from 0.0 to 1.0, the first stop is at 0.611 with the color at 0.0 and the last at 0.389 with the color at 1.0 |
| GradientStops.PaddedRephasedEnds | src/main/java/eu/hansolo/fx/regulators/ColorRegulator.java:286-298 | padding a map with keys in [0,1] and re-phasing it starts at 0.611 with the lowest key's color and ends at 0.389 with the highest key's |
| GradientStops.ReorderedEnds | src/main/java/eu/hansolo/fx/regulators/ColorRegulator.java:284-298 | for offsets in [0,1], the first output stop comes from 0.0 with the lowest offset's color and the last from 1.0 with the highest offset's color |
| GradientStops.RunsOfFractions | src/main/java/eu/hansolo/fx/regulators/ColorRegulator.java:294-298 | increasing fractions straddling 0.5 re-phase to two ascending runs split exactly where the fractions reach 0.5 |
| GradientStops.PaddedRephasedRuns | src/main/java/eu/hansolo/fx/regulators/ColorRegulator.java:286-298 | padding a map with keys in [0,1] and re-phasing its ascending fractions gives two ascending runs |
| GradientStops.ReorderedRuns | src/main/java/eu/hansolo/fx/regulators/ColorRegulator.java:294-298 | for offsets in [0,1] the output is two strictly ascending runs, in [0.611,1) then in [0,0.389], with one descent between them |
| ColorRegulatorControl.StoredColor | src/main/java/eu/hansolo/fx/regulators/ColorRegulator.java:117 | a null color is stored as black, any other color as given |
| ColorRegulatorControl.TouchValueOnUnitDomain | src/main/java/eu/hansolo/fx/regulators/ColorRegulator.java:123 | the step is 280, the touch value is angle/280 in [0,1], and the phased angle 140 gives 0.5 |
| ColorRegulatorControl.UnitIndicatorFormulas | src/main/java/eu/hansolo/fx/regulators/ColorRegulator.java:329-338 | the rotation is v*280-140, within [-140,140] for v in [0,1]; the bar extent is v*280, the full 280 for MAX_VALUE |
| ColorRegulatorControl.DefaultStopsCollapse | src/main/java/eu/hansolo/fx/regulators/ColorRegulator.java:159-165 | the seven default stops fill the map with seven distinct entries |
| ColorRegulatorControl.DefaultStopsPadded | src/main/java/eu/hansolo/fx/regulators/ColorRegulator.java:159-167 | the default stops already cover 0.0 and 1.0, so padding adds nothing |
| ColorRegulatorControl.DefaultStopsAscending | src/main/java/eu/hansolo/fx/regulators/ColorRegulator.java:159-167 | the sorted default fractions are 0, 0.125, 0.375, 0.5, 0.625, 0.875, 1 |
| ColorRegulatorControl.DefaultFractionsRephased | src/main/java/eu/hansolo/fx/regulators/ColorRegulator.java:294-298 | those fractions re-phase to 0.611, 0.70825, 0.90275, 0.0, 0.09725, 0.29175, 0.389 |
| ColorRegulatorControl.DefaultStopsReordered | src/main/java/eu/hansolo/fx/regulators/ColorRegulator.java:159-167 | `reorderStops` of the default stops is the list with those offsets and the default colors |
| ColorRegulatorControl.ColorRegulator.constructor | src/main/java/eu/hansolo/fx/regulators/ColorRegulator.java:106-127 | value 0, yellow, indicator at -140, step 280, and the bar built from the re-phased default stops that the lookup holds |
| ColorRegulatorControl.ColorRegulator.SetTargetValue | src/main/java/eu/hansolo/fx/regulators/ColorRegulator.java:108-111 | stores clamp(0, 1, v), `v` itself when in range, nothing else changes |
| ColorRegulatorControl.ColorRegulator.SetTargetColor | src/main/java/eu/hansolo/fx/regulators/ColorRegulator.java:115-118 | stores the color, or black for null; nothing else changes |
| ColorRegulatorControl.ColorRegulator.TouchRotate | src/main/java/eu/hansolo/fx/regulators/ColorRegulator.java:308-324 | the value becomes the snapped phase angle over 280, inside [0,1]; nothing else changes |
| ColorRegulatorControl.ColorRegulator.Rotate | src/main/java/eu/hansolo/fx/regulators/ColorRegulator.java:328-331 | the indicator turns to (v-0)*280-140 and the looked-up color is stored through the null rule |
| ColorRegulatorControl.ColorRegulator.SetGradientStops | src/main/java/eu/hansolo/fx/regulators/ColorRegulator.java:265-269 | the lookup always receives the stops; the bar becomes `ReorderedStops(stops)`, agreeing with the lookup, exactly when the list is non-empty; otherwise the bar is unchanged and no longer agrees with the lookup |
| ColorRegulatorControl.TouchOnFixedDomain | src/main/java/eu/hansolo/fx/regulators/ColorRegulator.java:308-324 | a fresh widget touched at bearings 270, 90 and 91 reads 0.5, 1 and 0 |

## Left out

- The pointer-to-bearing step of `touchRotate` is left out. It uses `sceneToLocal`, `sqrt`, `atan2` and `toDegrees`, which are foreign floating-point code. The bearing is an input in [0,360) instead. The NaN produced at the exact centre, which `clamp` lets through, is not modelled.
- IEEE-754 behaviour is not modelled: rounding of the 0.778 products, NaN, signed zero, and the distinct `-0.0` key that a `HashMap<Double, …>` would keep. Infinity appears only as the `Infinite` angle step.
- Overflow of `maxValue - minValue` is not modelled. `Regulator`'s class invariant allows bounds anywhere in [-`DoubleMax`, `DoubleMax`], but for bounds near both ends Java's difference is +Infinity and `angleStep` becomes 0.0. A touch at bearing 270 then gives `maxValue` in Java (an infinite quotient, clamped), and one at bearing 91 gives NaN (0/0, which `clamp` lets through). The model computes the exact difference and a finite positive step, so those touches give the midpoint `(min + max) / 2` and `min`.
- The indicator rotation and bar extent for an infinite step (min == max) are left out. In Java they are NaN or infinite. `Dial.IndicatorRotationOnArc` and its neighbours require `min < max`.
- `ConicalGradient`, `GradientLookup` and `Fonts` are not part of this model. The lookup's colour for a value is a parameter of `ColorRegulator.Rotate`. The bar gradient is represented by its stop list.
- Scene-graph construction, effects, sizing and the button handlers are UI code and are left out: `init`, `initGraphics` apart from the default stops, `resize` apart from the `clamp` call on line 333, `redraw`, `buttonOnPressed` and `buttonOffPressed`. `currentColorCircle.setFill` with the raw, possibly null, colour is also UI code.
- Listener and event wiring is left out: the `targetValue` listener that calls `rotate`, and the `TARGET_SET` event. `Rotate` is a method its caller invokes.
- `String.format` output, `adjustTextSize` and the style string of `setSymbolPath` are left out. They depend on the Java formatter and on toolkit metrics. Only the pattern string `formatString` is modelled.
- The `barColor` property of `Regulator` is left out, as it is outside the modelled core.
- A null `unit` argument is left out. It would make `VALUE.equals("%")` throw, and strings here are never null.
- `RegulatorControl.Regulator.SetDecimals`: states the digit with `DigitChar` rather than through `Integer.toString`. The two agree by `RegulatorControl.SmallIntegerToString`.
