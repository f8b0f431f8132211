/** JSON values as they travel between the app (Gson) and the collector
    (Express + node-postgres). */
module Json {

  /** A JSON value. `JTime` stands for an ISO-8601 timestamp string and keeps
      the instant it denotes, in milliseconds since the epoch. */
  datatype Json =
    | JNull
    | JBool(b: bool)
    | JNum(n: int)
    | JStr(s: string)
    | JTime(ms: int)
    | JArr(items: seq<Json>)
    | JObj(fields: map<string, Json>)

  /** JavaScript property access `v.key`: a missing key, or a value that is not
      an object, gives `undefined`, which node-postgres binds as SQL NULL. */
  function Get(v: Json, key: string): Json
  {
    if v.JObj? && key in v.fields then v.fields[key] else JNull
  }

  /** JavaScript falsiness (`!v` is true): undefined/null, false, 0 and "". */
  predicate Falsy(v: Json)
  {
    match v
    case JNull => true
    case JBool(b) => !b
    case JNum(n) => n == 0
    case JStr(s) => s == ""
    case JTime(_) => false
    case JArr(_) => false
    case JObj(_) => false
  }
}
