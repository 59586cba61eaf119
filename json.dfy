/** JSON documents as the gateway sees them through encoding/json. Byte-level syntax is
    abstracted: a body either is the text of a JSON value or is not valid JSON. */
module Json {
  import opened Basics

  datatype Json =
    | JNull
    | JBool(b: bool)
    | JNumber(literal: string)
    | JString(s: string)
    | JArray(items: seq<Json>)
    | JObject(members: map<string, Json>)

  /** A message body: the text of a JSON value, or bytes that do not parse. */
  datatype Payload = Wellformed(doc: Json) | Malformed(raw: string)

  /** json.Unmarshal into a map[string]interface{}: an object decodes to its members,
      `null` leaves the map nil, and any other value or invalid text is an error (None). */
  function DecodeObject(p: Payload): (r: Option<Json>)
    ensures r.Some? <==> p.Wellformed? && (p.doc.JObject? || p.doc.JNull?)
    ensures r.Some? ==> r.value == p.doc
  {
    if p.Wellformed? && (p.doc.JObject? || p.doc.JNull?) then Some(p.doc) else None
  }

  /** Reading keys out of a decoded map: a nil map (from `null`) has no keys. */
  function Members(doc: Json): (m: map<string, Json>)
    ensures doc.JObject? ==> m == doc.members
    ensures !doc.JObject? ==> m == map[]
  {
    if doc.JObject? then doc.members else map[]
  }
}
