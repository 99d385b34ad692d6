/** JSON values as the request body delivers them, and the dictionary operations the
    product-creation path performs on them. Numbers are integers: floating point
    quantities are not modelled. */
module Json {

  datatype Json =
    | JNull
    | JBool(b: bool)
    | JNum(n: int)
    | JStr(s: string)
    | JList(items: seq<Json>)
    | JObject(entries: seq<Entry>)

  /** One key/value pair of a JSON object, in the order the object lists them. */
  datatype Entry = Entry(key: string, value: Json)

  /** Python truthiness: null, false, 0, "", [] and {} are falsy. */
  predicate Truthy(j: Json) {
    match j
    case JNull => false
    case JBool(b) => b
    case JNum(n) => n != 0
    case JStr(s) => s != ""
    case JList(items) => items != []
    case JObject(entries) => entries != []
  }

  /** `isinstance(v, list) or isinstance(v, dict)` */
  predicate IsCollection(j: Json) {
    j.JList? || j.JObject?
  }

  predicate HasKey(entries: seq<Entry>, k: string) {
    exists i :: 0 <= i < |entries| && entries[i].key == k
  }

  /** Dictionary assignment `d[k] = v`. An object's entries are read with the last entry
      for a key winning, so the assignment is an entry appended at the end. */
  function SetKey(entries: seq<Entry>, k: string, v: Json): (r: seq<Entry>)
    ensures HasKey(r, k)
  {
    var r := entries + [Entry(k, v)];
    assert r[|entries|].key == k;
    r
  }
}
