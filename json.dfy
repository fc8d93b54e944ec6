/** The JSON tree a request body is marshalled from. */
module JsonTree {
  import opened Wrappers

  /** Objects are unordered maps: key order in the serialised text is not modelled. */
  datatype Json =
    | JObject(fields: map<string, Json>)
    | JArray(items: seq<Json>)
    | JString(text: string)
    | JInt(number: int)

  /** The value reached from `j` by following `path`, a sequence of object keys;
      None when a key is missing or a non-object is met on the way. */
  function Lookup(j: Json, path: seq<string>): Option<Json>
    decreases |path|
  {
    if path == [] then Some(j)
    else match j
      case JObject(fields) => if path[0] in fields then Lookup(fields[path[0]], path[1..]) else None
      case _ => None
  }

  /** Following a path through an object member is following the rest of the path from that member. */
  lemma LookupChild(fields: map<string, Json>, key: string, path: seq<string>)
    requires key in fields
    ensures Lookup(JObject(fields), [key] + path) == Lookup(fields[key], path)
  {
    assert ([key] + path)[1..] == path;
  }
}
