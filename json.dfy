/** The fragment of JSON the fault-log report is built from: objects are maps
    from key to value (nlohmann::json keeps them sorted by key, so there is no
    insertion order to model), arrays are sequences. */
module Json {
  import opened Wrappers

  datatype Json =
    | JNull
    | JBool(b: bool)
    | JInt(i: int)
    | JString(s: string)
    | JArray(items: seq<Json>)
    | JObject(fields: map<string, Json>)

  /** `j[key]` for an object that has the key; absent otherwise. */
  function Field(j: Json, key: string): (r: Option<Json>)
    ensures r.Some? <==> j.JObject? && key in j.fields
    ensures r.Some? ==> r.value == j.fields[key]
  {
    if j.JObject? && key in j.fields then Some(j.fields[key]) else None
  }

  /** Follows a chain of object keys from `j`. */
  function FieldPath(j: Json, keys: seq<string>): Option<Json>
    decreases |keys|
  {
    if keys == [] then Some(j)
    else match Field(j, keys[0])
      case None => None
      case Some(child) => FieldPath(child, keys[1..])
  }

  /** A JSON array that is appended to in place, as `json::push_back` does to
      the report array handed to the assembler. */
  class JsonArray {
    var items: seq<Json>

    constructor (initial: seq<Json>)
      ensures items == initial
    {
      items := initial;
    }

    method PushBack(j: Json)
      modifies this
      ensures items == old(items) + [j]
    {
      items := items + [j];
    }
  }
}
