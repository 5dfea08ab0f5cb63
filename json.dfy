/** Parsed JSON values as `JSON.parse` produces them, with the two pieces of
    JavaScript semantics the client relies on: truthiness and property reads. */
module Json {
  import opened Wrappers

  datatype Json =
    | JNull
    | JBool(b: bool)
    | JNum(n: real)
    | JStr(s: string)
    | JArr(items: seq<Json>)
    | JObj(fields: map<string, Json>)

  /** The empty object `{}` used as a destructuring default. */
  const EmptyObject: Json := JObj(map[])

  /** JavaScript truthiness; `None` is `undefined`. JSON has no NaN, so the
      falsy values are exactly undefined, null, false, 0 and the empty string. */
  predicate Truthy(v: Option<Json>) {
    match v
    case None => false
    case Some(JNull) => false
    case Some(JBool(b)) => b
    case Some(JNum(n)) => n != 0.0
    case Some(JStr(s)) => s != ""
    case Some(_) => true
  }

  /** The property read `v.key` on a value that is not null. Only objects
      have own properties; none of the keys the client reads (event, type,
      payload, data, status, ...) is an array index, `length` or a member of a
      prototype, so on every other value the read yields `undefined`. */
  function Get(v: Json, key: string): Option<Json> {
    if v.JObj? && key in v.fields then Some(v.fields[key]) else None
  }
}
