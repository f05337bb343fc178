/** Already-parsed JSON payloads (the project file and the manifest field) and JavaScript truthiness. */
module Json {

  /**
   * A parsed JSON value. Numbers are restricted to integers; an object is a key/value map
   * (a repeated key in the text keeps its last value, as JSON.parse does).
   */
  datatype Json =
    | JNull
    | JBool(b: bool)
    | JNum(n: int)
    | JStr(s: string)
    | JArr(items: seq<Json>)
    | JObj(fields: map<string, Json>)

  /** JavaScript truthiness of a parsed JSON value: null, false, 0 and "" are falsy, everything else is truthy. */
  predicate Truthy(j: Json) {
    match j
    case JNull => false
    case JBool(b) => b
    case JNum(n) => n != 0
    case JStr(s) => s != ""
    case JArr(_) => true
    case JObj(_) => true
  }

  /** The falsy JSON values are exactly null, false, 0 and the empty string. */
  lemma FalsyValues(j: Json)
    ensures !Truthy(j) <==> (j == JNull || j == JBool(false) || j == JNum(0) || j == JStr(""))
  {
  }
}
