/**
  JSON values as the service receives and returns them, and the JavaScript
  truthiness test that the handlers apply to request fields and error bodies.
 */
module Js {
  import opened Wrappers

  /** A JSON value; numbers are kept integral. */
  datatype Json =
    | Null
    | Bool(b: bool)
    | Num(n: int)
    | Str(s: string)
    | Arr(items: seq<Json>)
    | Obj(members: seq<(string, Json)>)

  /** `!!v`: null, false, 0 and "" are falsy; every array and object is truthy. */
  predicate Truthy(v: Json) {
    match v
    case Null => false
    case Bool(b) => b
    case Num(n) => n != 0
    case Str(s) => s != ""
    case Arr(_) => true
    case Obj(_) => true
  }

  /** `!!x` for a string field of a request body that may be absent (undefined or null). */
  predicate IsTruthyString(x: Option<string>) {
    x.Some? && x.value != ""
  }

  /** `!!x` for a numeric field of a request body that may be absent (undefined or null). */
  predicate IsTruthyNumber(x: Option<int>) {
    x.Some? && x.value != 0
  }
}
