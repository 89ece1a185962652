/** JavaScript value semantics the pattern kernel depends on: absent values,
    thrown errors, the dynamic values a form or options object can hold, and
    texts that are either plain strings or per-locale translation objects. */
module Js {

  /** `null`/`undefined` on one side, a present value on the other. */
  datatype Option<+T> = None | Some(value: T) {
    function GetOr(default: T): T {
      match this
      case Some(v) => v
      case None => default
    }
  }

  /** A computation that either returns or throws an `Error` with a message. */
  datatype Result<+T> = Ok(value: T) | Throws(message: string)

  /** A dynamic value as read from a measurements or options object.  `Num`
      is a finite number; the infinities are not represented. */
  datatype Value = Num(r: real) | NaN | Str(s: string) | Null | Undefined

  /** Property read `obj[key]`: a missing key reads as `undefined`. */
  function Lookup(m: map<string, Value>, key: string): Value {
    if key in m then m[key] else Undefined
  }

  /** `typeof v === "number"` (NaN is a number to `typeof`). */
  predicate IsNumberType(v: Value) {
    v.Num? || v.NaN?
  }

  /** `v ?? d`: replaces `null` and `undefined` only. */
  function Nullish(v: Value, d: Value): Value {
    if v.Null? || v.Undefined? then d else v
  }

  /** `Number(v)`.  String parsing is delegated to `numberOf`. */
  function ToNumber(v: Value, numberOf: string -> Value): Value {
    match v
    case Num(_) => v
    case NaN => NaN
    case Null => Num(0.0)
    case Undefined => NaN
    case Str(s) => numberOf(s)
  }

  /** A label or title: a plain string or a `{ en: ..., ru: ... }` object. */
  datatype Text = Plain(s: string) | Keyed(tr: map<string, string>)

  /** Template-literal interpolation `${text}`: an object prints as
      "[object Object]". */
  function TextString(t: Text): string {
    match t
    case Plain(s) => s
    case Keyed(_) => "[object Object]"
  }

  /** `t || fallback` followed by interpolation: the empty string is falsy,
      every object is truthy. */
  function TextOr(t: Option<Text>, fallback: string): string {
    match t
    case Some(Plain(s)) => if s == "" then fallback else s
    case Some(Keyed(_)) => "[object Object]"
    case None => fallback
  }
}
