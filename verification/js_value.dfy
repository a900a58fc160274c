/**
  JavaScript values as a request handler sees them in `req.body` or in the
  decoded token, together with the two pieces of JavaScript semantics the
  controllers lean on: truthiness (`!x`, `x || y`, `x ? a : b`) and the
  `Number(x)` conversion with its `NaN` result.
 */
module JsValue {
  import opened Options

  /** A field of a request body or of a token payload. A key that is not
      present reads as `Undefined`. */
  datatype Value = Undefined | Null | Bool(b: bool) | Str(s: string) | Number(n: real)

  /** JavaScript truthiness: `undefined`, `null`, `false`, `""` and `0` are falsy,
      every other value here is truthy. */
  predicate Truthy(v: Value) {
    match v
    case Undefined => false
    case Null => false
    case Bool(b) => b
    case Str(s) => s != ""
    case Number(n) => n != 0.0
  }

  /** `v == null` in JavaScript: loose equality with `null` holds for `null`
      and `undefined` only. */
  predicate IsNullish(v: Value) {
    v.Undefined? || v.Null?
  }

  /** A JavaScript number as produced by `Number(...)`: either `NaN` or a
      finite value (infinities are not modelled). */
  datatype Numeric = NaN | Finite(r: real)

  /** The ASCII white-space characters `Number` strips from a string. */
  predicate IsSpace(c: char) {
    c == ' ' || c == '\t' || c == '\n' || c == '\r' || c == '\U{000B}' || c == '\U{000C}'
  }

  predicate IsBlank(s: string) {
    forall i :: 0 <= i < |s| ==> IsSpace(s[i])
  }

  /** `Number(v)`. How a non-blank string reads as a number is the parameter
      `parse` (`None` for text that is not numeric); a blank string is 0. */
  function ToNumber(v: Value, parse: string -> Option<real>): Numeric {
    match v
    case Undefined => NaN
    case Null => Finite(0.0)
    case Bool(b) => if b then Finite(1.0) else Finite(0.0)
    case Number(n) => Finite(n)
    case Str(s) =>
      if IsBlank(s) then Finite(0.0)
      else match parse(s)
        case None => NaN
        case Some(r) => Finite(r)
  }

  /** The JavaScript value that reads back as `x`: a number for a finite
      value, `undefined` for `NaN`. */
  function FromNumeric(x: Numeric): Value {
    match x
    case NaN => Undefined
    case Finite(r) => Number(r)
  }

  /** `a - b`, with `NaN` absorbing. */
  function Minus(a: Numeric, b: Numeric): Numeric {
    if a.Finite? && b.Finite? then Finite(a.r - b.r) else NaN
  }

  /** `a * b`, with `NaN` absorbing. */
  function Times(a: Numeric, b: Numeric): Numeric {
    if a.Finite? && b.Finite? then Finite(a.r * b.r) else NaN
  }

  /** `a / 100`. */
  function Hundredth(a: Numeric): Numeric {
    if a.Finite? then Finite(a.r / 100.0) else NaN
  }

  /** `Number` gives back the number that `FromNumeric` wrote, whatever the
      string reader is. */
  lemma NumberRoundTrip(x: Numeric, parse: string -> Option<real>)
    ensures ToNumber(FromNumeric(x), parse) == x
  {
  }
}
