/** The JSON values carried in envelope payloads, and the two JavaScript
    operations the proxy applies to them: reading a property and testing truthiness. */
module Json {
  import opened Wrappers

  /** A parsed JSON value. Numbers are integers here (payload ids and counters);
      an absent payload is read as `JNull`, which behaves the same way. */
  datatype Json =
    | JNull
    | JBool(b: bool)
    | JNum(n: int)
    | JStr(s: string)
    | JArr(items: seq<Json>)
    | JObj(fields: map<string, Json>)

  /** Reading `j.key`: `Failure` is the TypeError JavaScript raises on `null`,
      `Success(None)` is `undefined`. */
  function Property(j: Json, key: string): (r: Result<Option<Json>, string>)
    ensures r.Failure? <==> j.JNull?
    ensures r.Success? && r.value.Some? <==> j.JObj? && key in j.fields
    ensures r.Success? && r.value.Some? ==> r.value.value == j.fields[key]
  {
    match j
    case JNull => Failure("Cannot read properties of null")
    case JObj(fields) => if key in fields then Success(Some(fields[key])) else Success(None)
    case _ => Success(None)
  }

  /** JavaScript truthiness of a JSON value. */
  predicate Truthy(j: Json) {
    match j
    case JNull => false
    case JBool(b) => b
    case JNum(n) => n != 0
    case JStr(s) => s != ""
    case JArr(_) => true
    case JObj(_) => true
  }
}
