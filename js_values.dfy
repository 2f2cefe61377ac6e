/**
 * The few pieces of JavaScript value semantics the playground relies on:
 * numbers that may be NaN or infinite, the `typeof` of a field, the
 * coercion performed by the global `isNaN` and `isFinite`, and the
 * relational operators against a numeric constant.
 *
 * A finite double is modelled by the real it denotes; rounding is not
 * modelled. Negative zero is the same value as zero here, which matches
 * `===` (`-0 === 0` is true).
 */
module JsValues {

  /** A JavaScript number. */
  datatype JsNumber = Finite(value: real) | NaN | PosInfinity | NegInfinity

  /**
   * A JavaScript value as far as the playground inspects one. A string
   * carries the number that `Number(s)` gives for it, since string-to-number
   * parsing is not part of this model.
   */
  datatype JsValue =
    | Num(n: JsNumber)
    | Undefined
    | Null
    | Bool(b: bool)
    | Str(s: string, numeric: JsNumber)

  /** The `typeof` operator. */
  function TypeOf(v: JsValue): string
  {
    match v
    case Num(_) => "number"
    case Undefined => "undefined"
    case Null => "object"
    case Bool(_) => "boolean"
    case Str(_, _) => "string"
  }

  /** The abstract operation ToNumber, used by the global `isNaN` and `isFinite`. */
  function ToNumber(v: JsValue): JsNumber
  {
    match v
    case Num(n) => n
    case Undefined => NaN
    case Null => Finite(0.0)
    case Bool(b) => Finite(if b then 1.0 else 0.0)
    case Str(_, n) => n
  }

  /** The global `isNaN(v)`. */
  predicate IsNaN(v: JsValue)
  {
    ToNumber(v).NaN?
  }

  /** The global `isFinite(v)`. */
  predicate IsFinite(v: JsValue)
  {
    ToNumber(v).Finite?
  }

  /** `v === c` for a numeric constant `c`. */
  predicate StrictEqualsNumber(v: JsValue, c: real)
  {
    v == Num(Finite(c))
  }

  /** `n > c` for a numeric constant `c`. */
  predicate GreaterThan(n: JsNumber, c: real)
  {
    match n
    case Finite(r) => r > c
    case PosInfinity => true
    case NegInfinity => false
    case NaN => false
  }

  /** `n < c` for a numeric constant `c`. */
  predicate LessThan(n: JsNumber, c: real)
  {
    match n
    case Finite(r) => r < c
    case PosInfinity => false
    case NegInfinity => true
    case NaN => false
  }

  /** `n >= c` for a numeric constant `c`. */
  predicate AtLeast(n: JsNumber, c: real)
  {
    match n
    case Finite(r) => r >= c
    case PosInfinity => true
    case NegInfinity => false
    case NaN => false
  }

  /**
   * The number read by `a[i]` from a numeric array when it is compared:
   * past the end the read gives `undefined`, which every relational
   * operator converts to NaN.
   */
  function At(a: seq<JsNumber>, i: int): JsNumber
  {
    if 0 <= i < |a| then a[i] else NaN
  }
}
