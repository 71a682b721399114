/** An abstract JSON value: what a JSON decoder hands back, without its text form. */
module Json {

  datatype Json =
    | JNull
    | JBool(b: bool)
    | JNumber(n: int)
    | JString(s: string)
    | JArray(items: seq<Json>)
    | JObject(fields: map<string, Json>)

  /** True when `j` is an object holding `key`. */
  predicate HasField(j: Json, key: string) {
    j.JObject? && key in j.fields
  }
}
