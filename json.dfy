/**
 * The untyped (`any`) payloads that the offline store keeps: rows, patches and
 * query results, as JSON-like values.
 */
module Json {
  import opened Wrappers

  datatype Json =
    | JNull
    | JBool(b: bool)
    | JNum(n: int)
    | JStr(s: string)
    | JArr(items: seq<Json>)
    | JObj(fields: map<string, Json>)

  /** JavaScript truthiness: null, false, 0 and "" are falsy; every array and object is truthy. */
  predicate Truthy(v: Json) {
    match v
    case JNull => false
    case JBool(b) => b
    case JNum(n) => n != 0
    case JStr(s) => s != ""
    case JArr(_) => true
    case JObj(_) => true
  }

  /** `v.name` on an object; absent (`undefined`) on anything else or a missing field. */
  function Field(v: Json, name: string): (r: Option<Json>)
    ensures r.Some? <==> v.JObj? && name in v.fields
    ensures r.Some? ==> r.value == v.fields[name]
  {
    if v.JObj? && name in v.fields then Some(v.fields[name]) else None
  }

  /**
   * `{ id, ...data }`: the object with an `id` field followed by every field of
   * data, so that a field `id` of data replaces the leading one.
   */
  function WithIdThenSpread(id: string, data: map<string, Json>): (r: map<string, Json>)
    ensures r.Keys == data.Keys + {"id"}
    ensures forall k :: k in data ==> r[k] == data[k]
    ensures "id" !in data ==> r["id"] == JStr(id)
  {
    map["id" := JStr(id)] + data
  }
}
