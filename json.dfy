/**
 * The part of `serde_json::Value` the modelled code inspects: the shape of a
 * value and the accessors `get`, `as_str`, `as_bool` and `as_i64`. Decoding
 * JSON text is not modelled; where the code decodes a string, the decoded
 * value is an input.
 */
module Json {
  import opened Wrappers

  const I64Min: int := -0x8000_0000_0000_0000
  const I64Max: int := 0x7FFF_FFFF_FFFF_FFFF

  /** A JSON number is an integer or a float, as in `serde_json::Number`. */
  datatype Json =
    | JNull
    | JBool(b: bool)
    | JInt(i: int)
    | JFloat(f: real)
    | JString(s: string)
    | JArray(items: seq<Json>)
    | JObject(fields: map<string, Json>)

  /** `value.get(key)`: a field of an object; `None` for a missing key or a non-object. */
  function Get(v: Json, key: string): (r: Option<Json>)
    ensures r.Some? <==> v.JObject? && key in v.fields
    ensures r.Some? ==> r.value == v.fields[key]
  {
    if v.JObject? && key in v.fields then Some(v.fields[key]) else None
  }

  /** `value.as_str()`. */
  function AsStr(v: Json): (r: Option<string>)
    ensures r.Some? <==> v.JString?
    ensures r.Some? ==> r.value == v.s
  {
    if v.JString? then Some(v.s) else None
  }

  /** `value.as_bool()`. */
  function AsBool(v: Json): (r: Option<bool>)
    ensures r.Some? <==> v.JBool?
    ensures r.Some? ==> r.value == v.b
  {
    if v.JBool? then Some(v.b) else None
  }

  /** `value.as_i64()`: only integers that fit in 64 signed bits. */
  function AsI64(v: Json): (r: Option<int>)
    ensures r.Some? <==> v.JInt? && I64Min <= v.i <= I64Max
    ensures r.Some? ==> r.value == v.i
  {
    if v.JInt? && I64Min <= v.i <= I64Max then Some(v.i) else None
  }

  /** `item.get(key).and_then(|v| v.as_str())`: the string under `key`, if there is one. */
  function GetStr(item: Json, key: string): (r: Option<string>)
    ensures r.Some? <==> item.JObject? && key in item.fields && item.fields[key].JString?
    ensures r.Some? ==> r.value == item.fields[key].s
  {
    match Get(item, key)
    case Some(v) => AsStr(v)
    case None => None
  }
}
