/**
 * The fetched payload: an arbitrary JSON value, and JavaScript's notion of
 * truthiness on it.
 */
module Json {

  /** A JSON value as `response.json()` or `JSON.parse` produces it. */
  datatype Json =
    | JNull
    | JBool(b: bool)
    | JNum(n: real)
    | JStr(s: string)
    | JArr(items: seq<Json>)
    | JObj(fields: map<string, Json>)

  /** `!!v` in JavaScript: `null`, `false`, `0` and `""` are falsy, every other JSON value is truthy. */
  predicate Truthy(v: Json)
  {
    match v
    case JNull => false
    case JBool(b) => b
    case JNum(n) => n != 0.0
    case JStr(s) => s != ""
    case JArr(_) => true
    case JObj(_) => true
  }
}
