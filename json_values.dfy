/** JSON values as the Python side holds them after `json.loads`. A `dict`
    is a map from key to value: the order its keys were inserted in only
    shows in JSON text, whose object members are unordered (section 4 of
    RFC 8259). Numbers are exact reals (float rounding is not modelled). */
module JsonValues {
  import opened Wrappers

  datatype Json =
    | JNull
    | JBool(b: bool)
    | JNum(n: real)
    | JStr(s: string)
    | JArr(items: seq<Json>)
    | JObj(obj: Object)

  /** A Python dict with string keys. */
  type Object = map<string, Json>

  /** `{}` */
  const Empty: Object := map[]

  /** Python's truth test: None, False, 0, "", [] and {} are false. */
  predicate Truthy(j: Json) {
    match j
    case JNull => false
    case JBool(b) => b
    case JNum(n) => n != 0.0
    case JStr(s) => s != ""
    case JArr(items) => items != []
    case JObj(o) => o != map[]
  }

  /** `k in d` */
  predicate HasKey(o: Object, k: string) {
    k in o
  }

  /** `d.get(k)`, with None for a missing key. */
  function Get(o: Object, k: string): (r: Option<Json>)
    ensures r.Some? <==> HasKey(o, k)
    ensures r.Some? ==> r.value == o[k]
  {
    if k in o then Some(o[k]) else None
  }

  /** `if cond: d[k] = v` */
  function PutIf(o: Object, cond: bool, k: string, v: Json): (r: Object)
    ensures Get(r, k) == if cond then Some(v) else Get(o, k)
    ensures forall k' :: k' != k ==> Get(r, k') == Get(o, k')
    ensures r.Keys == if cond then o.Keys + {k} else o.Keys
  {
    if cond then o[k := v] else o
  }
}
