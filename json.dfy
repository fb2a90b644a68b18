/**
 * The JSON-compatible values that events, request bodies and server replies
 * are made of. A Python `dict` with string keys is a `Dict`.
 */
module Json {

  datatype Value =
    | Null
    | Bool(b: bool)
    | Int(i: int)
    | Str(s: string)
    | List(items: seq<Value>)
    | Object(fields: map<string, Value>)

  type Dict = map<string, Value>

  /** `d.get(key)`: the value stored under `key`, or `None` when there is none. */
  function Get(d: Dict, key: string): (v: Value)
    ensures key in d ==> v == d[key]
    ensures key !in d ==> v == Null
  {
    if key in d then d[key] else Null
  }
}
