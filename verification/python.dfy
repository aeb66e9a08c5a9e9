/**
 * The few Python rules the back end relies on, over the same JSON values
 * the MQTT payloads carry: truthiness, `dict.get` with a default, and list
 * indexing with negative indices.
 */
module PyValues {
  import opened Wrappers
  import opened Js

  /** Python truthiness: `None`, `False`, zero, and empty texts, lists and
      dictionaries are false. */
  predicate PyTruthy(v: Json) {
    match v
    case JNull => false
    case JBool(b) => b
    case JNum(n) => n != 0.0
    case JStr(s) => s != ""
    case JArr(items) => items != []
    case JObj(fields) => fields != map[]
  }

  /** `d.get(key, default)`. */
  function Get(d: map<string, Json>, key: string, default: Json): (r: Json)
    ensures key in d ==> r == d[key]
    ensures key !in d ==> r == default
  {
    if key in d then d[key] else default
  }

  /** The position `xs[i]` reads in a list of length `n`: negative indices
      count from the end; anything else out of range raises `IndexError`
      (`None`). */
  function PyIndex(i: int, n: nat): (r: Option<nat>)
    ensures r.Some? <==> -(n as int) <= i < n
    ensures r.Some? ==> r.value < n && (i >= 0 ==> r.value == i) && (i < 0 ==> r.value == n + i)
  {
    if 0 <= i < n then Some(i)
    else if -(n as int) <= i < 0 then Some(n + i)
    else None
  }
}
