/** The shape of a `serde_json::Value`, with the two lookups the handlers use. Numbers are
    integers here; no handler in this model reads a fractional one. */
module Json {

  import opened Wrappers

  datatype Json =
    | JNull
    | JBool(b: bool)
    | JNumber(n: int)
    | JString(str: string)
    | JArray(items: seq<Json>)
    | JObject(fields: map<string, Json>)

  /** `Value::get(key)`: the member of an object, `None` for a missing key or a non-object. */
  function Get(v: Json, key: string): (r: Option<Json>)
    ensures r.Some? <==> v.JObject? && key in v.fields
    ensures r.Some? ==> r.value == v.fields[key]
  {
    if v.JObject? && key in v.fields then Some(v.fields[key]) else None
  }

  /** `Value::as_str()`: the text of a JSON string, `None` for every other kind of value. */
  function AsStr(v: Json): (r: Option<string>)
    ensures r.Some? <==> v.JString?
  {
    if v.JString? then Some(v.str) else None
  }

  /** `value[key].as_str()`: indexing yields `Null` for a missing key or a non-object, and
      `Null` is not a string. */
  function StrField(v: Json, key: string): (r: Option<string>)
    ensures r.Some? <==> Get(v, key).Some? && Get(v, key).value.JString?
    ensures r.Some? ==> Get(v, key) == Some(JString(r.value))
  {
    match Get(v, key)
    case Some(f) => AsStr(f)
    case None => None
  }
}
