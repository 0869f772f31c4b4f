/** The values that travel in request parameters and response bodies: what
    `JSON.parse` yields and what `to_json` accepts. The text encoding itself
    is not part of this model. */
module JsonValues {
  import opened Common
  import opened Dates

  datatype Json =
    | JNull
    | JBool(b: bool)
    | JNumber(n: int)
    | JString(s: string)
      /** A Ruby Date, which `to_json` writes as its ISO 8601 text. */
    | JDate(date: Date)
    | JArray(items: seq<Json>)
    | JObject(members: map<string, Json>)

  /** A parameters hash with string keys. */
  type Params = map<string, Json>

  /** A String attribute as it is written to JSON: nil becomes null. */
  function OptionalString(v: Option<string>): (r: Json)
    ensures r.JNull? <==> v.None?
  {
    match v
    case None => JNull
    case Some(s) => JString(s)
  }

  /** Reads back a String attribute written by OptionalString. */
  function ReadOptionalString(j: Json): Option<string>
  {
    match j
    case JString(s) => Some(s)
    case _ => None
  }

  lemma OptionalStringRoundTrip(v: Option<string>)
    ensures ReadOptionalString(OptionalString(v)) == v
  {
  }
}
