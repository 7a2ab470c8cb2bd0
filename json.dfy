/** The part of `serde_json::Value` that the mapping layer reads: objects,
    arrays, strings, booleans and integers (floating-point numbers are not
    modelled). The accessors mirror `get`, `as_str`, `as_u64`, `as_array`,
    `as_object` and `as_bool`. */
module Json {
  import opened Wrappers

  const U64_BOUND: nat := 0x1_0000_0000_0000_0000

  datatype Json =
    | Null
    | Bool(b: bool)
    | Number(n: int)
    | Str(s: string)
    | Array(items: seq<Json>)
    | Object(fields: map<string, Json>)
  {
    /** `value.get(key)`: a field of an object, nothing for any other value. */
    function Get(key: string): Option<Json> {
      if Object? && key in fields then Some(fields[key]) else None
    }

    function AsStr(): Option<string> { if Str? then Some(s) else None }

    function AsBool(): Option<bool> { if Bool? then Some(b) else None }

    /** `as_u64`: integers in `[0, 2^64)`. */
    function AsU64(): Option<nat> {
      if Number? && 0 <= n < U64_BOUND then Some(n as nat) else None
    }

    function AsArray(): Option<seq<Json>> { if Array? then Some(items) else None }
  }

  /** `value.get(key).and_then(|v| v.as_str())`. */
  function GetStr(v: Json, key: string): Option<string> {
    match v.Get(key)
    case Some(f) => f.AsStr()
    case None => None
  }

  function GetU64(v: Json, key: string): Option<nat> {
    match v.Get(key)
    case Some(f) => f.AsU64()
    case None => None
  }
}
