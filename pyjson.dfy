/**
 * The decoded JSON payloads the websocket delivers, and the few Python
 * operations the client applies to them: `dict.get`, truthiness and `v[0]`.
 */
module PyJson {
  import opened Wrappers

  /** A decoded JSON value, as Python's `json` module produces it. */
  datatype Json =
    | Null
    | Bool(b: bool)
    | Number(n: real)
    | Str(s: string)
    | Array(items: seq<Json>)
    | Object(fields: map<string, Json>)

  /** The Python exceptions the message pipeline can raise. */
  datatype PyError = AttributeError | TypeError | KeyError | IndexError

  /** `obj.get(key)`: the value under `key`, or None when it is absent. */
  function Get(obj: Json, key: string): Json
    requires obj.Object?
  {
    if key in obj.fields then obj.fields[key] else Null
  }

  /** Python truthiness: None, False, 0, "", [] and {} are false. */
  predicate Truthy(v: Json) {
    match v
    case Null => false
    case Bool(b) => b
    case Number(n) => n != 0.0
    case Str(s) => s != ""
    case Array(items) => items != []
    case Object(fields) => fields != map[]
  }

  /**
   * `v[0]`: the first element of a list, the first character of a string;
   * a dict raises KeyError (decoded JSON keys are strings, never 0), an
   * empty sequence IndexError, and a scalar TypeError.
   */
  function Index0(v: Json): Result<Json, PyError> {
    match v
    case Null => Err(TypeError)
    case Bool(_) => Err(TypeError)
    case Number(_) => Err(TypeError)
    case Str(s) => if s == "" then Err(IndexError) else Ok(Str([s[0]]))
    case Array(items) => if items == [] then Err(IndexError) else Ok(items[0])
    case Object(_) => Err(KeyError)
  }
}
