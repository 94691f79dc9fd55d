/** JavaScript values as the App component sees them: the decoded body of an
    HTTP response, the `problems` state it stores, and JavaScript's
    null-or-something convention for the `error` state. */
module JsValue {

  /** `null` or a present value. */
  datatype Option<+T> = None | Some(value: T) {
    /** The present value, or `default` when there is none. */
    function GetOr(default: T): T {
      match this
      case Some(v) => v
      case None => default
    }
  }

  /** A JavaScript value reachable from a decoded JSON body, plus `undefined`,
      which is what reading an absent property yields. Numbers are carried,
      never computed with, so a `real` stands for a double. */
  datatype Value =
    | Undefined
    | Null
    | Bool(b: bool)
    | Num(n: real)
    | Str(s: string)
    | Arr(items: seq<Value>)
    | Obj(fields: map<string, Value>)

  /** The values for which `typeof v === 'string'` is false. */
  type NonString = v: Value | !v.Str? witness Null
}
