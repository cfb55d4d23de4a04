/** JSON-like values: the dicts, strings and `None` that the SDK builds and sends. */
module JsonValue {

  datatype Option<+T> = None | Some(value: T)

  /** A JSON value. Floating-point numbers are not modelled; `None` is `JNull`. */
  datatype Json =
    | JNull
    | JBool(b: bool)
    | JNum(n: int)
    | JStr(str: string)
    | JArr(items: seq<Json>)
    | JObj(fields: map<string, Json>)

  /** A Python dict whose values are JSON values. */
  type Dict = map<string, Json>

  /** `obj.get(key)` on a JSON object; `None` for a missing key or a non-object. */
  function Get(j: Json, key: string): Option<Json>
  {
    if j.JObj? && key in j.fields then Some(j.fields[key]) else None
  }

  /** `Get` applied through an optional value. */
  function GetIn(o: Option<Json>, key: string): Option<Json>
  {
    match o
    case None => None
    case Some(j) => Get(j, key)
  }

  /** A Python `str | None` as a JSON value. */
  function OptionalString(o: Option<string>): Json
  {
    match o
    case None => JNull
    case Some(s) => JStr(s)
  }
}
