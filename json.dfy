/**
 * Values produced by `JSON.parse`, and the JavaScript tests the parsers apply
 * to them: truthiness, `typeof … === 'object'`, `key in v` and `v.key`.
 */
module Json {
  import opened Wrappers

  /** A parsed JSON value. Numbers are taken to be integers; an object keeps the last value of a repeated key. */
  datatype Json =
    | JNull
    | JBool(b: bool)
    | JNumber(n: int)
    | JString(s: string)
    | JArray(items: seq<Json>)
    | JObject(fields: map<string, Json>)

  /** `JSON.parse` itself: `None` when it throws a SyntaxError. */
  type Decoder = string -> Option<Json>

  /** `!!v` */
  predicate Truthy(v: Json) {
    match v
    case JNull => false
    case JBool(b) => b
    case JNumber(n) => n != 0
    case JString(s) => s != []
    case _ => true
  }

  /** `typeof v === 'object'`: objects, arrays and `null`. */
  predicate IsTypeofObject(v: Json) {
    v.JNull? || v.JArray? || v.JObject?
  }

  /** `v && typeof v === 'object'`: a non-null object or array. */
  predicate IsObjectValue(v: Json) {
    Truthy(v) && IsTypeofObject(v)
  }

  lemma ObjectValueIff(v: Json)
    ensures IsObjectValue(v) <==> v.JArray? || v.JObject?
  {
  }

  /** `key in v` for an object or array value (no array has the keys the services ask for). */
  predicate HasKey(v: Json, key: string) {
    v.JObject? && key in v.fields
  }

  /** `v.key` on a non-null value: `None` is `undefined`. */
  function Get(v: Json, key: string): (r: Option<Json>)
    ensures r.Some? <==> HasKey(v, key)
  {
    if v.JObject? && key in v.fields then Some(v.fields[key]) else None
  }

  /** `typeof v.key === 'string'` gives the string. */
  function GetString(v: Json, key: string): (r: Option<string>)
    ensures r.Some? <==> HasKey(v, key) && v.fields[key].JString?
    ensures r.Some? ==> v.fields[key] == JString(r.value)
  {
    match Get(v, key)
    case Some(JString(s)) => Some(s)
    case _ => None
  }

  /** `typeof v.key === 'number'` gives the number. */
  function GetNumber(v: Json, key: string): (r: Option<int>)
    ensures r.Some? <==> HasKey(v, key) && v.fields[key].JNumber?
  {
    match Get(v, key)
    case Some(JNumber(n)) => Some(n)
    case _ => None
  }
}
