/** JavaScript values as the handler sees them, with the two JS operations the
    handler leans on: truthiness (`x || fallback`) and template interpolation (`${x}`). */
module Js {

  datatype Option<T> = None | Some(value: T)

  /** A field of the event or of an SDK response: missing (`undefined`), `null`, or a string. */
  datatype JsValue = Undefined | Null | Str(s: string)

  /** JavaScript truthiness restricted to these values: only a non-empty string is truthy. */
  predicate Truthy(v: JsValue) {
    v.Str? && v.s != ""
  }

  /** `a || b`: the left operand when it is truthy, otherwise the right one. */
  function Or(a: JsValue, b: JsValue): JsValue {
    if Truthy(a) then a else b
  }

  /** `${v}` inside a template literal: absent values are spelled out, not dropped. */
  function Render(v: JsValue): string {
    match v
    case Undefined => "undefined"
    case Null => "null"
    case Str(s) => s
  }

  /** `${v || 'fallback'}`: a truthy value verbatim, anything else replaced by the fallback. */
  function RenderOr(v: JsValue, fallback: string): (r: string)
    ensures Truthy(v) ==> r == v.s
    ensures !Truthy(v) ==> r == fallback
  {
    Render(Or(v, Str(fallback)))
  }
}
