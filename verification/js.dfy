/** The small part of JavaScript's value semantics the server and client code
    relies on: what a JSON request field can hold, truthiness, the `length`
    property, `String(x)`, and thrown errors. */
module Js {
  import Decimal

  datatype Option<+T> = None | Some(value: T)

  datatype Result<+R, +E> = Success(value: R) | Failure(error: E)

  /** A step that either completes or throws. */
  datatype Outcome<+E> = Pass | Fail(error: E)

  /** A field of a parsed JSON body (objects and arrays are not modelled;
      numbers are integers). */
  datatype JsValue =
    | Undefined
    | Null
    | Bool(b: bool)
    | Num(n: int)
    | Str(s: string)

  /** JavaScript truthiness: `!v` is true exactly for the falsy values. */
  predicate Truthy(v: JsValue) {
    match v
    case Undefined => false
    case Null => false
    case Bool(b) => b
    case Num(n) => n != 0
    case Str(s) => s != ""
  }

  /** `v.length`: a string's length, `undefined` (None) for a boolean or a
      number. Reading it from `undefined` or `null` throws, which only the
      truthiness check that precedes every use keeps from happening. */
  function Length(v: JsValue): (r: Option<nat>)
    requires v != Undefined && v != Null
    ensures r.Some? <==> v.Str?
    ensures v.Str? ==> r.value == |v.s|
  {
    if v.Str? then Some(|v.s|) else None
  }

  /** `String(v)`. The mint button applies it, through `new Error(v)`, only
      to truthy values; `new Error(undefined)` would give an empty message. */
  function ToJsString(v: JsValue): (r: string)
    ensures v.Str? ==> r == v.s
    ensures Truthy(v) ==> |r| > 0
  {
    match v
    case Undefined => "undefined"
    case Null => "null"
    case Bool(b) => if b then "true" else "false"
    case Num(n) => Decimal.FromInt(n)
    case Str(s) => s
  }

  /** A thrown JavaScript error: its class and its `message`. */
  datatype JsError =
    | Error(message: string)
    | TypeError(message: string)
    | ReferenceError(message: string)
}
