/**
  The value `json.loads` produces. The parser itself is not modelled: every
  operation that parses takes it as a parameter of type `Parser`, which maps a
  text either to a document or to the parser's error message.
*/
module JsonDoc {
  import opened Common

  /** A parsed JSON document. Objects are maps because `json.loads` keeps the
      last of several equal keys; a number with a fraction or exponent is a
      float in Python and is kept as its text. */
  datatype Json =
    | JNull
    | JBool(b: bool)
    | JInt(i: int)
    | JFloat(text: string)
    | JString(s: string)
    | JArray(items: seq<Json>)
    | JObject(fields: map<string, Json>)

  /** `json.loads`: a document, or the message of the `JSONDecodeError`. */
  type Parser = string -> Result<Json, string>

  /** A JSON array of strings, as `List[str]` needs one. */
  function StringList(xs: seq<string>): (j: Json)
    ensures j.JArray? && |j.items| == |xs|
    ensures forall i :: 0 <= i < |xs| ==> j.items[i] == JString(xs[i])
  {
    JArray(seq(|xs|, i requires 0 <= i < |xs| => JString(xs[i])))
  }
}
