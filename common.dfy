/** Values shared by every module of the model: optional values, results of
    calls that may raise, the exceptions the services raise, the dynamically
    typed values that travel in configuration dictionaries, and bytes. */
module Common {

  datatype Option<T> = None | Some(value: T)

  /** The Python exceptions the modelled code raises or lets through. */
  datatype Exception =
    | ValueError(message: string)
    | RuntimeError(message: string)
    | TypeError(message: string)
    | OSError(message: string)
  {
    /** What `str(e)` gives for the exception. */
    function Text(): string { message }
  }

  /** The outcome of a Python call: a value, or a raised exception. */
  datatype Result<T> = Ok(value: T) | Err(error: Exception)

  /** A value in a configuration dictionary (`dict[str, Any]`). A float is
      kept as a `real`; nothing in the model computes with it. */
  datatype Value = Null | Bool(b: bool) | Int(i: int) | Float(x: real) | Str(s: string)

  /** `dict.get(key, default)` on a configuration dictionary. */
  function Get(m: map<string, Value>, key: string, default: Value): (v: Value)
    ensures key in m ==> v == m[key]
    ensures key !in m ==> v == default
  {
    if key in m then m[key] else default
  }

  /** Python truthiness of a dictionary value. */
  predicate Truthy(v: Value)
  {
    match v
    case Null => false
    case Bool(b) => b
    case Int(i) => i != 0
    case Float(x) => x != 0.0
    case Str(s) => s != ""
  }

  /** Python truthiness of an `Optional[str]`: present and non-empty. */
  predicate TruthyText(o: Option<string>)
  {
    o.Some? && o.value != ""
  }

  /** Python truthiness of an `Optional[int]`: present and non-zero. */
  predicate TruthyInt(o: Option<int>)
  {
    o.Some? && o.value != 0
  }

  newtype byte = x: int | 0 <= x < 256
}
