/** Decoded JSON documents, as Python's `json.loads` hands them back. */
module Json {

  /** One decoded JSON value. `JNull` is what `json.loads("null")` yields
      (Python's `None`); objects become dicts, arrays become lists. */
  datatype Json =
    | JNull
    | JBool(b: bool)
    | JNumber(n: real)
    | JString(s: string)
    | JArray(items: seq<Json>)
    | JObject(fields: map<string, Json>)

  /** Python's `bool(v)` on the decoded value: `None`, `False`, zero and
      empty containers are falsy, everything else is truthy. */
  predicate Truthy(v: Json) {
    match v
    case JNull => false
    case JBool(b) => b
    case JNumber(n) => n != 0.0
    case JString(s) => |s| > 0
    case JArray(items) => |items| > 0
    case JObject(fields) => |fields| > 0
  }

  /** Only a dict answers `.get(...)`; on any other value it raises
      AttributeError. */
  predicate HasGet(v: Json) {
    v.JObject?
  }
}
