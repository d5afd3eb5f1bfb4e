/** How the pages read numeric form fields. Every numeric field is a number input,
    so its text is blank (None) or a well-formed number (Some). `parseFloat` of a
    well-formed number is the number; `parseInt` truncates it toward zero; a blank
    field parses to NaN, which `|| fallback` replaces, as it replaces 0. */
module NumberInput {
  import opened Wrappers

  /** `parseInt` of a decimal numeral: drop the fraction, toward zero. */
  function Truncate(v: real): (r: int)
    ensures v >= 0.0 ==> 0.0 <= v - r as real < 1.0
    ensures v < 0.0 ==> 0.0 <= r as real - v < 1.0
  {
    if v >= 0.0 then v.Floor else -((-v).Floor)
  }

  /** `parseInt(text) || fallback`: NaN and 0 are both falsy. */
  function IntOr(v: Option<real>, fallback: int): (r: int)
    ensures v.None? ==> r == fallback
    ensures v.Some? && Truncate(v.value) != 0 ==> r == Truncate(v.value)
    ensures v.Some? && Truncate(v.value) == 0 ==> r == fallback
    ensures fallback != 0 ==> r != 0
  {
    if v.None? || Truncate(v.value) == 0 then fallback else Truncate(v.value)
  }

  /** `parseFloat(text) || fallback`. */
  function FloatOr(v: Option<real>, fallback: real): (r: real)
    ensures v.None? ==> r == fallback
    ensures v.Some? && v.value != 0.0 ==> r == v.value
    ensures v.Some? && v.value == 0.0 ==> r == fallback
    ensures fallback != 0.0 ==> r != 0.0
  {
    if v.None? || v.value == 0.0 then fallback else v.value
  }

  /** `Math.round`: the nearest integer, halves rounded up. */
  function Round(x: real): (r: int)
    ensures x - 0.5 < r as real <= x + 0.5
  {
    (x + 0.5).Floor
  }

  /** Typing the result back into the field gives the same value: `parseInt(t) || f`
      settles after one step. */
  lemma IntOrStable(v: Option<real>, fallback: int)
    ensures IntOr(Some(IntOr(v, fallback) as real), fallback) == IntOr(v, fallback)
  {
    var r := IntOr(v, fallback);
    assert Truncate(r as real) == r;
  }

  /** Typing the result back into the field gives the same value. */
  lemma FloatOrStable(v: Option<real>, fallback: real)
    ensures FloatOr(Some(FloatOr(v, fallback)), fallback) == FloatOr(v, fallback)
  {
  }

  /** A zero fallback makes `|| 0` the identity on numbers. */
  lemma FloatOrZero(v: Option<real>)
    ensures FloatOr(v, 0.0) == v.GetOr(0.0)
  {
  }
}
