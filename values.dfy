/**
 * The Python values that can end up in `Config.youtube_api_key`: a string or
 * `None` from the environment or Key Vault, or any value `json.load` can
 * produce from `settings.json`, together with Python's truthiness test, which
 * is what every `if self.youtube_api_key:` in the resolution chain applies.
 */
module PyValues {
  import opened Options

  /**
   * A Python value as `json.load` produces it. `Null` is `None`, `Int` an
   * exact Python `int`, `Float` a Python `float` of which only whether it
   * is non-zero is kept (NaN and infinities are non-zero), `List` a `list`
   * and `Dict` a `dict` with string keys.
   */
  datatype Value =
    | Null
    | Bool(b: bool)
    | Int(i: int)
    | Float(nonzero: bool)
    | Str(s: string)
    | List(items: seq<Value>)
    | Dict(entries: map<string, Value>)

  /** Python's `bool(v)`: `None`, `False`, zero, and empty strings and containers are falsy. */
  predicate Truthy(v: Value) {
    match v
    case Null => false
    case Bool(b) => b
    case Int(i) => i != 0
    case Float(nonzero) => nonzero
    case Str(s) => s != ""
    case List(items) => items != []
    case Dict(entries) => entries != map[]
  }

  /** A `str | None` as a Python value. */
  function FromOptional(o: Option<string>): Value {
    match o
    case None => Null
    case Some(s) => Str(s)
  }

  /** `d.get(key)` on a dict: the entry, or `None` when the key is missing. */
  function DictGet(entries: map<string, Value>, key: string): Value {
    if key in entries then entries[key] else Null
  }
}
