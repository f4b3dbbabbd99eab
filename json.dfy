/** The JSON values carried by MQTT payloads. Decoding and encoding text is left
    to the JSON libraries of each end; the model keeps only the decoded value. */
module Json {
  import opened Wrappers

  newtype byte = x: int | 0 <= x < 256

  /** A decoded JSON document. Numbers keep their literal text, so no floating
      point is involved; objects map each key to its (last) value. */
  datatype Json =
    | Null
    | Bool(b: bool)
    | Number(literal: string)
    | Str(s: string)
    | Array(items: seq<Json>)
    | Object(members: map<string, Json>)

  /** `payload[key]` in Python or a field lookup: absent unless the document is an
      object holding that key. */
  function Member(j: Json, key: string): (r: Option<Json>)
    ensures r.Some? <==> j.Object? && key in j.members
    ensures r.Some? ==> r.value == j.members[key]
  {
    if j.Object? && key in j.members then Some(j.members[key]) else None
  }
}
