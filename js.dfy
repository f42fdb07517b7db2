/**
 * The handful of JavaScript value semantics the application relies on:
 * truthiness (`!x`, `x && y`), the value-returning `||`, and string
 * conversion in template literals. Numbers are modelled as reals with a
 * separate NaN; how the runtime prints a number is not modelled and is
 * passed in as `fmt` wherever a number is turned into text.
 */
module Js {

  datatype Option<+T> = None | Some(value: T)

  datatype JsValue =
    | Undefined
    | Null
    | Bool(b: bool)
    | Num(x: real)
    | NaN
    | Str(s: string)

  /** ToBoolean: the falsy values are undefined, null, false, 0, NaN and "". */
  predicate Truthy(v: JsValue) {
    match v
    case Undefined => false
    case Null => false
    case NaN => false
    case Bool(b) => b
    case Num(x) => x != 0.0
    case Str(s) => s != ""
  }

  /** `a || b`: the left operand when it is truthy, otherwise the right one. */
  function Or(a: JsValue, b: JsValue): (r: JsValue)
    ensures Truthy(r) <==> Truthy(a) || Truthy(b)
    ensures Truthy(a) ==> r == a
    ensures !Truthy(a) ==> r == b
  {
    if Truthy(a) then a else b
  }

  /** String(v), as a template literal `${v}` produces it. */
  function ToJsString(v: JsValue, fmt: real -> string): string {
    match v
    case Undefined => "undefined"
    case Null => "null"
    case NaN => "NaN"
    case Bool(b) => if b then "true" else "false"
    case Num(x) => fmt(x)
    case Str(s) => s
  }
}
