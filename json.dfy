/**
 * The JSON values that cross the webview bridge (`serde_json::Value`).
 * Numbers are kept as integers: nothing in the model inspects them.
 */
module Json {
  import opened Wrappers

  datatype Value =
    | Null
    | Bool(b: bool)
    | Number(n: int)
    | String(s: string)
    | Array(items: seq<Value>)
    | Object(fields: map<string, Value>)

  /** `map.get(key)`: the field, if present. */
  function Get(fields: map<string, Value>, key: string): Option<Value>
  {
    if key in fields then Some(fields[key]) else None
  }

  /** `Value::as_bool`: only a JSON boolean yields a boolean. */
  function AsBool(v: Value): Option<bool>
  {
    if v.Bool? then Some(v.b) else None
  }

  /** `Value::as_str`: only a JSON string yields a string. */
  function AsStr(v: Value): Option<string>
  {
    if v.String? then Some(v.s) else None
  }
}
