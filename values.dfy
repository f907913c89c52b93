/** Decoded JSON and YAML values. */
module Values {

  /** A value as Go's decoders build it inside an `interface{}`: nil, bool,
      float64, string, `[]interface{}` or `map[string]interface{}`. */
  datatype Json =
    | JNull
    | JBool(b: bool)
    | JNumber(n: real)
    | JString(s: string)
    | JArray(items: seq<Json>)
    | JObject(members: map<string, Json>)

  /** Go's `m[key]` on a `map[string]interface{}`: a missing key reads as nil,
      which is the same value a JSON `null` decodes to. */
  function Member(m: map<string, Json>, key: string): (j: Json)
    ensures key !in m ==> j == JNull
    ensures key in m ==> j == m[key]
  {
    if key in m then m[key] else JNull
  }
}
