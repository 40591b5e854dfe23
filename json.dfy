/**
 * The Python values that `json.loads` produces and that Flask's
 * `request.get_json()` hands to a request handler, with the two operations
 * the content generator applies to them: truth testing (`if not data`) and
 * subscripting with a string key (`seo_data['title']`).
 */
module Json {

  /** A decoded JSON value: None, bool, int, float, str, list or dict. */
  datatype Json =
    | JNull
    | JBool(b: bool)
    | JInt(i: int)
    | JFloat(f: real)
    | JString(s: string)
    | JArray(items: seq<Json>)
    | JObject(fields: map<string, Json>)

  /** What `json.loads` does with a text: raise a decoding error, or return a value. */
  datatype Decoded = SyntaxError | Decoded(value: Json)

  /** Python's truth value of a decoded JSON value. */
  predicate Truthy(v: Json) {
    match v
    case JNull => false
    case JBool(b) => b
    case JInt(i) => i != 0
    case JFloat(f) => f != 0.0
    case JString(s) => s != []
    case JArray(items) => items != []
    case JObject(fields) => fields != map[]
  }

  /** The name Python gives to the type of the value. */
  function TypeName(v: Json): string {
    match v
    case JNull => "NoneType"
    case JBool(_) => "bool"
    case JInt(_) => "int"
    case JFloat(_) => "float"
    case JString(_) => "str"
    case JArray(_) => "list"
    case JObject(_) => "dict"
  }

  /** The outcome of `v[key]`: the value, a `KeyError`, or a `TypeError`. */
  datatype Lookup = Found(value: Json) | KeyError(key: string) | TypeError(typeName: string)

  /**
   * `v[key]` for a string key: only a dict can be indexed by a string; a dict
   * without the key raises `KeyError(key)`, every other value a `TypeError`
   * naming its type.
   */
  function Subscript(v: Json, key: string): (r: Lookup)
    ensures r.Found? <==> v.JObject? && key in v.fields
    ensures r.Found? ==> r.value == v.fields[key]
    ensures v.JObject? && key !in v.fields ==> r == KeyError(key)
    ensures !v.JObject? ==> r == TypeError(TypeName(v)) && r.typeName != "dict"
  {
    match v
    case JObject(fields) => if key in fields then Found(fields[key]) else KeyError(key)
    case _ => TypeError(TypeName(v))
  }
}
