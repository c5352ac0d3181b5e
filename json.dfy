/**
 * An abstract JSON document, standing for the value the SwiftyJSON library
 * builds from the configuration file's bytes, and the four accessors of that
 * library the program uses. SwiftyJSON never fails: bytes it cannot parse
 * become the null value, and so does a subscript that finds nothing.
 */
module JsonValues {
  import opened Wrappers

  datatype Json =
    | JNull
    | JBool(b: bool)
    | JNumber(n: real)
    | JString(s: string)
    | JArray(elems: seq<Json>)
    | JObject(fields: map<string, Json>)

  /** `json[key]`: the member under `key`, or null when `j` is not an object or lacks the key. */
  function Member(j: Json, key: string): Json {
    if j.JObject? && key in j.fields then j.fields[key] else JNull
  }

  /** `json.string`: present only when the value is a string (no conversion of numbers or booleans). */
  function AsString(j: Json): Option<string> {
    if j.JString? then Some(j.s) else None
  }

  /** `json.array`: present only when the value is an array. */
  function AsArray(j: Json): Option<seq<Json>> {
    if j.JArray? then Some(j.elems) else None
  }

  /** `json.arrayValue`: the array's elements, or the empty list for any other value. */
  function ArrayValue(j: Json): seq<Json> {
    if j.JArray? then j.elems else []
  }
}
