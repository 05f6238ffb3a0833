/** The decoded form of a JSON document, as `json.loads` hands it to the
    validator. Object keys are unique: a repeated key keeps its last value,
    which a map records directly. */
module Json {

  datatype Json =
    | JNull
    | JBool(b: bool)
    | JInt(i: int)
    | JFloat(f: real)
    | JString(s: string)
    | JArray(items: seq<Json>)
    | JObject(fields: map<string, Json>)

  /** An array every element of which is a string. */
  predicate IsStringArray(j: Json)
  {
    j.JArray? && forall k :: 0 <= k < |j.items| ==> j.items[k].JString?
  }

  /** The JSON array holding the given strings, in order. */
  function StringArray(xs: seq<string>): Json
  {
    JArray(seq(|xs|, k requires 0 <= k < |xs| => JString(xs[k])))
  }
}
