/** Decoded JSON values, as the pyload API returns them after `json.loads`, and
    Python's truthiness test on them (`if x:` / `not x`). Floating-point numbers
    are not modelled: numbers are integers. */
module Json {

  datatype Json =
    | JNull
    | JBool(b: bool)
    | JNum(n: int)
    | JStr(s: string)
    | JArr(items: seq<Json>)
    | JObj(fields: map<string, Json>)

  /** The integer `-1` that the client returns in place of a decoded body when a
      request failed. */
  const Sentinel: Json := JNum(-1)

  /** Python truthiness: None, False, 0, "" and empty containers are falsy. */
  predicate Truthy(v: Json) {
    match v
    case JNull => false
    case JBool(b) => b
    case JNum(n) => n != 0
    case JStr(s) => |s| > 0
    case JArr(items) => |items| > 0
    case JObj(fields) => |fields| > 0
  }
}
