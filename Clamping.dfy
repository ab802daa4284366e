/** The `clamp` helper that both regulator widgets declare, and the range
    limit of a Java `double`. */
module Clamping {

  /** Double.MAX_VALUE, (2 - 2^-52) * 2^1023, written out exactly. */
  const DoubleMax: real := 179769313486231570814527423731704356798070567525844996598917476803157260780028538760589558632766878171540458953514382464234321326889464182768467546703537516986049910576551282076245490090389328944075868508455133942304583236903222948165808559332123348274797826204144723168738177180919299881250404026184124858368.0

  /** `clamp(MIN, MAX, VALUE)`: the lower bound is compared first, so when
      `lo > hi` every value at or above `lo` yields `hi`. */
  function Clamp(lo: real, hi: real, v: real): (r: real)
    ensures v < lo ==> r == lo
    ensures lo <= v && hi < v ==> r == hi
    ensures lo <= v <= hi ==> r == v
  {
    if v < lo then lo else if v > hi then hi else v
  }

  /** The same helper instantiated at `Integer`: Java compares the
      `doubleValue()` of the three arguments, so it picks exactly the
      argument the real-valued clamp picks. */
  function ClampInt(lo: int, hi: int, v: int): (r: int)
    ensures r as real == Clamp(lo as real, hi as real, v as real)
  {
    if v < lo then lo else if v > hi then hi else v
  }

  /** With ordered bounds the result lies between them. */
  lemma ClampInRange(lo: real, hi: real, v: real)
    requires lo <= hi
    ensures lo <= Clamp(lo, hi, v) <= hi
  {
  }

  /** With crossed bounds (`lo > hi`, as at Regulator.java line 333) the
      result is `lo` below `lo` and `hi` everywhere else: never `v`. */
  lemma ClampCrossedBounds(lo: real, hi: real, v: real)
    requires hi < lo
    ensures Clamp(lo, hi, v) == if v < lo then lo else hi
  {
  }

  /** Clamping twice into ordered bounds is clamping once. */
  lemma ClampIdempotent(lo: real, hi: real, v: real)
    requires lo <= hi
    ensures Clamp(lo, hi, Clamp(lo, hi, v)) == Clamp(lo, hi, v)
  {
  }

  /** The call `clamp(-1d, -2d, -size * 0.004)` that sets the inner shadow
      offset in `resize` yields -1 once the size exceeds 250 and -2 up to it. */
  lemma ClampShadowOffset(size: real)
    requires size >= 0.0
    ensures Clamp(-1.0, -2.0, -size * 0.004) == if size > 250.0 then -1.0 else -2.0
  {
  }
}
