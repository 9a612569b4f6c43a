/** JSON values: request parameters, request bodies and parsed responses. */
module Json {

  /** A JSON document. Numbers are integers here; see the README. */
  datatype Json =
    | JNull
    | JBool(b: bool)
    | JNumber(n: int)
    | JString(s: string)
    | JArray(items: seq<Json>)
    | JObject(members: map<string, Json>)
}
