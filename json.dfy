/** JSON values as the Python code sees them after `json.load`: `None`,
    `bool`, `int`, `float`, `str`, `list` and `dict` (key order is not
    modelled; keys are unique). */
module Json {
  import opened Wrappers

  datatype Json =
    | Null
    | Bool(b: bool)
    | Int(i: int)
    | Float(r: real)
    | Str(s: string)
    | Arr(items: seq<Json>)
    | Obj(fields: map<string, Json>)

  /** `d.get(key)`: `None` for a missing key. */
  function Get(fields: map<string, Json>, key: string): (v: Json)
    ensures key !in fields ==> v == Null
    ensures key in fields ==> v == fields[key]
  {
    if key in fields then fields[key] else Null
  }

  /** `d[key]`: a missing key raises `KeyError`. */
  function Index(fields: map<string, Json>, key: string): (r: Result<Json>)
    ensures r.Ok? <==> key in fields
    ensures r.Ok? ==> r.value == fields[key]
    ensures r.Err? ==> r.error == KeyError(key)
  {
    if key in fields then Ok(fields[key]) else Err(KeyError(key))
  }

  /** Python truthiness: `None`, `False`, zero, and empty strings, lists
      and dicts are false. */
  predicate Truthy(v: Json)
  {
    match v
    case Null => false
    case Bool(b) => b
    case Int(i) => i != 0
    case Float(r) => r != 0.0
    case Str(s) => |s| > 0
    case Arr(items) => |items| > 0
    case Obj(fields) => |fields| > 0
  }

  /** Truthiness of an optional string, `None` being false. */
  predicate TruthyStr(s: Option<string>)
  {
    s.Some? && |s.value| > 0
  }
}
