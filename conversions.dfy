/**
 * The two `strconv` conversions the typed getters use. Boolean parsing is
 * written out with Go's exact literal set; float parsing is left abstract and
 * is passed in by callers as a function.
 */
module Conversions {

  /** A Go `float64`, kept as its IEEE 754 binary64 bit pattern. */
  type Float64 = bv64

  /** The bit pattern of `+0.0`, the zero value Go returns alongside an error. */
  const PositiveZero: Float64 := 0

  /** What a `strconv.ParseX` call returns: the value and whether the error was nil. */
  datatype Parsed<T> = Parsed(value: T, ok: bool)

  /** A stand-in for `strconv.ParseFloat(s, 64)`; its behaviour is not modelled. */
  type FloatParser = string -> Parsed<Float64>

  const TrueLiterals: set<string> := {"1", "t", "T", "TRUE", "true", "True"}
  const FalseLiterals: set<string> := {"0", "f", "F", "FALSE", "false", "False"}

  /** `strconv.ParseBool`: accepts exactly the twelve literals; anything else is `(false, error)`. */
  function ParseBool(s: string): (r: Parsed<bool>)
    ensures r.ok <==> s in TrueLiterals + FalseLiterals
    ensures r.value <==> s in TrueLiterals
  {
    if s == "1" || s == "t" || s == "T" || s == "true" || s == "TRUE" || s == "True" then
      Parsed(true, true)
    else if s == "0" || s == "f" || s == "F" || s == "false" || s == "FALSE" || s == "False" then
      Parsed(false, true)
    else
      Parsed(false, false)
  }

  /** The literal set is not case-insensitive: a mixed-case spelling is refused. */
  lemma ParseBoolIsCaseSensitive()
    ensures !ParseBool("tRUE").ok && !ParseBool("yes").ok
  {
  }
}
