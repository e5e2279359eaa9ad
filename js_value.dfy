/**
 * JavaScript values as the handlers see them: JSON request bodies, error
 * properties and response fields. Numbers are integers here.
 */
module JsValue {

  datatype Js =
    | Undefined
    | Null
    | Bool(b: bool)
    | Num(n: int)
    | Str(s: string)
    | Arr(items: seq<Js>)
    | Obj(props: map<string, Js>)

  /** JavaScript truthiness: `undefined`, `null`, `false`, `0` and `""` are falsy. */
  predicate Truthy(v: Js) {
    match v
    case Undefined => false
    case Null => false
    case Bool(b) => b
    case Num(n) => n != 0
    case Str(s) => s != ""
    case Arr(_) => true
    case Obj(_) => true
  }

  /** The expression `a || b`. */
  function Or(a: Js, b: Js): Js {
    if Truthy(a) then a else b
  }

  /** The property read `o.key` on a plain object; a missing key reads as `undefined`. */
  function Get(o: map<string, Js>, key: string): Js {
    if key in o then o[key] else Undefined
  }

  /** `!o.k1 || !o.k2 || ...` is false: every listed property is truthy. */
  predicate AllTruthy(o: map<string, Js>, keys: seq<string>) {
    forall i :: 0 <= i < |keys| ==> Truthy(Get(o, keys[i]))
  }
}
