/** The loosely typed JSON trees that encoding/json produces when it decodes
    into `map[string]interface{}`, and the type assertions the translator
    applies to them. */
module Json {
  import opened Wrappers

  /** A decoded JSON value. encoding/json turns every number into a float64;
      here a number is kept as an exact rational. */
  datatype Json =
    | JNull
    | JBool(b: bool)
    | JNumber(n: real)
    | JString(s: string)
    | JArray(items: seq<Json>)
    | JObject(fields: map<string, Json>)

  /** A decoded JSON object: Go's `map[string]interface{}`. */
  type Object = map<string, Json>

  /** What `json.Unmarshal(text, &m)` leaves in a nil `map[string]interface{}`
      when its error is ignored. `decoded` is the outcome of decoding the text
      (None when the text is malformed); a malformed text, a `null` and any
      top-level value that is not an object all leave the map nil, which every
      lookup treats as empty. */
  function AsObject(decoded: Option<Json>): (obj: Object)
    ensures decoded.Some? && decoded.value.JObject? ==> obj == decoded.value.fields
    ensures !(decoded.Some? && decoded.value.JObject?) ==> obj == map[]
  {
    match decoded
    case Some(JObject(fields)) => fields
    case _ => map[]
  }

  /** `obj[key].(string)` */
  function StringAt(obj: Object, key: string): Option<string>
  {
    if key in obj && obj[key].JString? then Some(obj[key].s) else None
  }

  /** `obj[key].(float64)` */
  function NumberAt(obj: Object, key: string): Option<real>
  {
    if key in obj && obj[key].JNumber? then Some(obj[key].n) else None
  }

  /** `obj[key].([]interface{})` */
  function ArrayAt(obj: Object, key: string): Option<seq<Json>>
  {
    if key in obj && obj[key].JArray? then Some(obj[key].items) else None
  }

  /** `obj[key].(map[string]interface{})` */
  function ObjectAt(obj: Object, key: string): Option<Object>
  {
    if key in obj && obj[key].JObject? then Some(obj[key].fields) else None
  }

  /** The string at `key`, or `default` when it is missing or not a string:
      the `x := default; if s, ok := obj[key].(string); ok { x = s }` idiom. */
  function StringOr(obj: Object, key: string, default: string): string
  {
    match StringAt(obj, key)
    case Some(s) => s
    case None => default
  }
}
