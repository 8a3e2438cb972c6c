/**
 * The dictionaries the scrapers pass between stages, as JSON-like values, with
 * the two ways Python code reads them: `d.get(k, default)` and `x or default`.
 */
module Json {
  import opened Text

  datatype Json =
    | JNull
    | JBool(b: bool)
    | JInt(i: int)
    | JStr(s: String)
    | JList(items: seq<Json>)
    | JObj(fields: map<String, Json>)

  type Dict = map<String, Json>

  /** Python truthiness: `None`, `False`, `0` and empty strings, lists and dicts are false. */
  predicate Truthy(j: Json)
  {
    match j
    case JNull => false
    case JBool(b) => b
    case JInt(i) => i != 0
    case JStr(s) => s != []
    case JList(items) => items != []
    case JObj(fields) => fields != map[]
  }

  /** `d.get(k, default)`: the default applies only when the key is absent. */
  function Get(d: Dict, k: String, default: Json): (r: Json)
    ensures k in d ==> r == d[k]
    ensures k !in d ==> r == default
  {
    if k in d then d[k] else default
  }

  /** `x or default` */
  function Or(x: Json, default: Json): (r: Json)
    ensures Truthy(x) ==> r == x
    ensures !Truthy(x) ==> r == default
  {
    if Truthy(x) then x else default
  }
}
