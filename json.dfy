/** Values produced by the JSON and YAML loaders the services rely on, and the
    two Python operations the services apply to them without inspecting their
    shape: truthiness (`if not x`) and `dict.get(key, default)`. */
module JsonValue {

  /** A decoded JSON (or YAML) document. Numbers are kept as integers: the
      services only ever test them for truthiness or for being a string. */
  datatype Json =
    | JNull
    | JBool(b: bool)
    | JNumber(n: int)
    | JString(s: string)
    | JArray(items: seq<Json>)
    | JObject(fields: map<string, Json>)

  /** The empty dict `{}`. */
  const EmptyObject: Json := JObject(map[])

  /** Python truthiness of a decoded value: `None`, `False`, zero and empty
      strings, lists and dicts are false; everything else is true. */
  predicate Truthy(v: Json)
  {
    match v
    case JNull => false
    case JBool(b) => b
    case JNumber(n) => n != 0
    case JString(s) => s != []
    case JArray(items) => items != []
    case JObject(fields) => fields != map[]
  }

  /** `d.get(key, default)` on a dict. */
  function Get(d: map<string, Json>, key: string, default: Json): (r: Json)
    ensures key in d ==> r == d[key]
    ensures key !in d ==> r == default
  {
    if key in d then d[key] else default
  }
}
