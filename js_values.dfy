/**
 * The two JavaScript value domains the model needs beyond `real`: strings as
 * sequences of UTF-16 code units, and the non-finite numbers that a division
 * by zero produces.
 */
module JsValues {

  /** One UTF-16 code unit; a JavaScript string is a sequence of these. */
  newtype CodeUnit = x: int | 0 <= x < 0x1_0000

  type JsString = seq<CodeUnit>

  /** The JavaScript string of an ASCII literal, one code unit per character. */
  function Ascii(s: string): (r: JsString)
    requires forall i :: 0 <= i < |s| ==> s[i] < 128 as char
    ensures |r| == |s|
    ensures forall i :: 0 <= i < |s| ==> r[i] as int == s[i] as int
  {
    if s == [] then [] else [s[0] as int as CodeUnit] + Ascii(s[1..])
  }

  /**
   * A JavaScript number, with rounding ignored: a finite value, or one of the
   * three results IEEE-754 gives a division by zero.
   */
  datatype JsNumber = Finite(value: real) | PositiveInfinity | NegativeInfinity | NaN

  /** `a / b` as JavaScript evaluates it; signed zero is not modelled, so a zero divisor counts as `+0`. */
  function Divide(a: real, b: real): (q: JsNumber)
    ensures q.Finite? <==> b != 0.0
    ensures q.Finite? ==> q.value * b == a
    ensures b == 0.0 ==> (q == PositiveInfinity <==> a > 0.0)
    ensures b == 0.0 ==> (q == NegativeInfinity <==> a < 0.0)
    ensures b == 0.0 ==> (q == NaN <==> a == 0.0)
  {
    if b != 0.0 then Finite(a / b)
    else if a > 0.0 then PositiveInfinity
    else if a < 0.0 then NegativeInfinity
    else NaN
  }

  /** `x * k` for a positive constant `k`: infinities and NaN are left as they are. */
  function Scale(x: JsNumber, k: real): (r: JsNumber)
    requires k > 0.0
    ensures r.Finite? <==> x.Finite?
    ensures x.Finite? ==> r.value == x.value * k
    ensures !x.Finite? ==> r == x
  {
    match x
    case Finite(v) => Finite(v * k)
    case _ => x
  }
}
