/** A decoded JSON document, as Go's `encoding/json` produces it when it
    decodes into `interface{}`: `nil`, `bool`, `float64`, `string`,
    `[]interface{}` or `map[string]interface{}`. It also stands for the
    untyped `interface{}` values a session keeps. */
module Json {

  datatype Json =
    | JNull
    | JBool(b: bool)
    | JNumber(n: real)
    | JString(s: string)
    | JArray(items: seq<Json>)
    | JObject(fields: map<string, Json>)

  /** Go's `m[key]` on a `map[string]interface{}`: a missing key reads as `nil`. */
  function Field(fields: map<string, Json>, key: string): (v: Json)
    ensures key !in fields ==> v == JNull
  {
    if key in fields then fields[key] else JNull
  }
}
