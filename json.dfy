/**
 * JSON values as the handlers see them once a token payload or an HTTP body
 * has been parsed. Python's `None` and JSON `null` are the same value here:
 * `dict.get` yields `None` both for a missing key and for a key bound to
 * `null`, and `None` is written out as `null`.
 */
module Json {

  /** A JSON value; numbers are integers (the claims handled here are whole seconds, ids and codes). */
  datatype Value =
    | Null
    | Bool(b: bool)
    | Num(n: int)
    | Str(s: string)
    | Arr(items: seq<Value>)
    | Obj(fields: map<string, Value>)

  /** A JSON object: a claim set, or a response body. */
  type Object = map<string, Value>

  /** `d.get(key, default)`: the bound value, or `default` when the key is absent. */
  function GetOr(d: Object, key: string, default: Value): (v: Value)
    ensures key in d ==> v == d[key]
    ensures key !in d ==> v == default
  {
    if key in d then d[key] else default
  }

  /** `d.get(key)`: the bound value, or `null` when the key is absent. */
  function Get(d: Object, key: string): (v: Value)
    ensures key in d ==> v == d[key]
    ensures key !in d ==> v == Null
  {
    GetOr(d, key, Null)
  }
}
