/** The JSON trees the audit aspects build (Jackson's JsonNode), and the two ObjectNode
    operations they rely on: reading a field and `put`, which replaces a field's value in place
    or appends a new field at the end (ObjectNode keeps insertion order). */
module Json {
  import opened Errors

  datatype Json =
    | JNull
    | JBool(b: bool)
    | JNumber(text: string)     // a number, kept as its decimal text
    | JString(s: string)
    | JArray(items: seq<Json>)
    | JObject(fields: seq<(string, Json)>)

  /** Jackson's `JsonNode.asText()`: the value's text for scalar nodes, "" for containers. */
  function AsText(j: Json): string {
    match j
    case JNull => "null"
    case JBool(b) => if b then "true" else "false"
    case JNumber(t) => t
    case JString(s) => s
    case JArray(_) => ""
    case JObject(_) => ""
  }

  /** The field names of an object, in order. */
  function Names(fields: seq<(string, Json)>): (ns: seq<string>)
    ensures |ns| == |fields|
    ensures forall i :: 0 <= i < |fields| ==> ns[i] == fields[i].0
  {
    if fields == [] then [] else [fields[0].0] + Names(fields[1..])
  }

  /** No field name occurs twice, as in every ObjectNode. */
  predicate UniqueNames(fields: seq<(string, Json)>) {
    forall i, j :: 0 <= i < j < |fields| ==> fields[i].0 != fields[j].0
  }

  /** `ObjectNode.get(name)`. */
  function Get(fields: seq<(string, Json)>, name: string): (r: Option<Json>)
    ensures r.None? <==> name !in Names(fields)
  {
    if fields == [] then None
    else if fields[0].0 == name then Some(fields[0].1)
    else Get(fields[1..], name)
  }

  /** `ObjectNode.put(name, v)`: afterwards `name` holds `v`, every other field is as it was,
      an existing field keeps its position and a new one is appended. */
  function Put(fields: seq<(string, Json)>, name: string, v: Json): (r: seq<(string, Json)>)
    ensures Get(r, name) == Some(v)
    ensures forall other :: other != name ==> Get(r, other) == Get(fields, other)
  {
    if fields == [] then [(name, v)]
    else if fields[0].0 == name then [(name, v)] + fields[1..]
    else [fields[0]] + Put(fields[1..], name, v)
  }

  /** `put` keeps the order of the existing fields and appends a new name at the end. */
  lemma {:induction false} PutNames(fields: seq<(string, Json)>, name: string, v: Json)
    ensures Names(Put(fields, name, v)) == if name in Names(fields) then Names(fields) else Names(fields) + [name]
  {
    if fields != [] && fields[0].0 != name {
      PutNames(fields[1..], name, v);
      assert Names(fields) == [fields[0].0] + Names(fields[1..]);
      assert Names(Put(fields, name, v)) == [fields[0].0] + Names(Put(fields[1..], name, v));
    }
  }

  /** Putting into an object with distinct names leaves the names distinct. */
  lemma {:induction false} PutKeepsNamesUnique(fields: seq<(string, Json)>, name: string, v: Json)
    requires UniqueNames(fields)
    ensures UniqueNames(Put(fields, name, v))
  {
    var r := Put(fields, name, v);
    PutNames(fields, name, v);
    forall i, j | 0 <= i < j < |r| ensures r[i].0 != r[j].0 {
      assert Names(r)[i] == r[i].0 && Names(r)[j] == r[j].0;
      if name in Names(fields) {
        assert Names(fields)[i] == fields[i].0 && Names(fields)[j] == fields[j].0;
      } else if j < |fields| {
        assert Names(fields)[i] == fields[i].0 && Names(fields)[j] == fields[j].0;
      } else {
        assert Names(r)[j] == name;
        assert Names(r)[i] == Names(fields)[i];
      }
    }
  }
}
