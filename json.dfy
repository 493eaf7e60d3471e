/**
 * The JSON values the three components exchange, and the JSON library they
 * call (`json.dumps`, `json.loads`, and `float()` applied to a string).
 * The library is not modelled: a `JsonLib` value carries it as three opaque
 * functions, and every operation that serialises or parses receives it.
 */
module JsonValues {
  import opened Base

  /** A parsed JSON document; a Python dict is an `Object`. */
  datatype Json =
    | Null
    | Bool(b: bool)
    | Num(n: real)
    | Str(s: string)
    | Array(items: seq<Json>)
    | Object(fields: map<string, Json>)

  /**
   * The library: `dumps` is `json.dumps` with its defaults, `loads` is
   * `json.loads` with `None` where it raises, and `parseFloat` is Python's
   * `float()` on a string, `None` where it raises.
   */
  datatype JsonLib = JsonLib(
    dumps: Json -> string,
    loads: string -> Option<Json>,
    parseFloat: string -> Option<real>)

  /** `d.get(key)` on a dict; `None` for a missing key. */
  function Get(fields: map<string, Json>, key: string): (r: Option<Json>)
    ensures r.Some? <==> key in fields
    ensures r.Some? ==> r.value == fields[key]
  {
    if key in fields then Some(fields[key]) else None
  }

  /** Python's truth value of a JSON-derived object (`if x:`). */
  predicate Truthy(j: Json) {
    match j
    case Null => false
    case Bool(b) => b
    case Num(n) => n != 0.0
    case Str(s) => s != []
    case Array(items) => items != []
    case Object(fields) => fields != map[]
  }
}
