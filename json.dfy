/** Decoded JSON values (the bodies Flask's `request.json` and `response.json()` produce). */
module JsonData {

  /** JSON numbers are modelled as integers only. */
  datatype Json =
    | JNull
    | JBool(b: bool)
    | JNumber(n: int)
    | JString(s: string)
    | JArray(items: seq<Json>)
    | JObject(fields: seq<(string, Json)>)

  /** Python truthiness of the decoded value: None, False, 0, "", [] and {} are false. */
  predicate Truthy(j: Json)
  {
    match j
    case JNull => false
    case JBool(b) => b
    case JNumber(n) => n != 0
    case JString(s) => s != ""
    case JArray(items) => items != []
    case JObject(fields) => fields != []
  }

  /** A JSON object with one string field, as the handlers build their error bodies. */
  function Message(text: string): Json
  {
    JObject([("message", JString(text))])
  }
}
