/** Values shared by every part of the client: optional values, decoded JSON,
    and the values of HTTP query parameters. */
module Values {

  datatype Option<+T> = None | Some(value: T)

  /** A decoded JSON value.  Numbers are integers only: the server sends
      timestamps, sizes, versions and counters, all integral. */
  datatype Json =
    | JNull
    | JBool(b: bool)
    | JInt(i: int)
    | JStr(s: string)
    | JArr(items: seq<Json>)
    | JObj(fields: map<string, Json>)

  /** The value found under `key` when `j` is an object holding it
      (Python's `j[key]` when it does not raise). */
  function Field(j: Json, key: string): (r: Option<Json>)
    ensures r.Some? <==> j.JObj? && key in j.fields
    ensures r.Some? ==> r.value == j.fields[key]
  {
    if j.JObj? && key in j.fields then Some(j.fields[key]) else None
  }

  /** Python treats `bool` as a subtype of `int` (False == 0, True == 1), so
      arithmetic on a decoded JSON boolean behaves as on 0 or 1. */
  function AsNumber(j: Json): (r: Option<int>)
    ensures r.Some? <==> j.JInt? || j.JBool?
    ensures j.JInt? ==> r == Some(j.i)
    ensures j.JBool? ==> r == Some(if j.b then 1 else 0)
  {
    match j
    case JInt(i) => Some(i)
    case JBool(b) => Some(if b then 1 else 0)
    case _ => None
  }

  /** A query-parameter value before URL encoding: a string, an integer, or
      Python's `None` (which `urlencode` sends as the text "None"). */
  datatype Param = PStr(s: string) | PInt(i: int) | PNone
}
