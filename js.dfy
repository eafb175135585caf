/** The JavaScript values the front end puts into request parameters, and their truthiness. */
module Js {

  /** A parameter value: filter fields and the sort token are strings, page and size are numbers. */
  datatype Value = Str(s: string) | Num(n: int)

  /** JavaScript truthiness: `""` and `0` are the falsy ones among these values. */
  predicate Truthy(v: Value) {
    match v
    case Str(s) => s != ""
    case Num(n) => n != 0
  }

  /** A plain object used as a parameter dictionary. */
  type Params = map<string, Value>
}
