/** JSON values as the Python `json` module produces and consumes them (a dict becomes
    `JObject`, a list `JArray`, `int` and `float` both become `JNumber`).
    Text <-> value conversion (`json.loads`, `json.dumps`) is an external capability: it is
    carried around as a `Codec`, two functions supplied by the caller. */
module Json {
  import opened Wrappers

  datatype Json =
    | JNull
    | JBool(b: bool)
    | JNumber(n: real)
    | JString(s: string)
    | JArray(items: seq<Json>)
    | JObject(fields: map<string, Json>)

  /** `json.loads` (an `Err` is the decode error it raises) and `json.dumps(..., indent=2)`. */
  datatype Codec = Codec(loads: string -> Result<Json>, dumps: Json -> string)

  /** The string stored under `key` in an object, if it is there and is a string. */
  function StringField(j: Json, key: string): (r: Result<string>)
    ensures r.Ok? <==> j.JObject? && key in j.fields && j.fields[key].JString?
    ensures r.Ok? ==> JString(r.value) == j.fields[key]
  {
    if !j.JObject? then Err("input should be a valid dictionary")
    else if key !in j.fields then Err(key + ": field required")
    else if !j.fields[key].JString? then Err(key + ": input should be a valid string")
    else Ok(j.fields[key].s)
  }
}
