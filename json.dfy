/** JSON values as Python's `json` module produces them, Python's truthiness,
    and the few dict/list operations the dashboard applies to them. */
module Json {
  import opened Wrappers
  import opened Text

  /** A decoded JSON document. Objects are Python dicts keyed by strings;
      floating-point numbers are not modelled. */
  datatype Json =
    | JNull
    | JBool(b: bool)
    | JInt(i: int)
    | JStr(s: string)
    | JArr(items: seq<Json>)
    | JObj(fields: map<string, Json>)

  /** The Python exceptions the modelled code can raise. */
  datatype PyError =
    | KeyError(key: string)
    | IndexError
    | TypeError
    | AttributeError
    | DecodeError        // json.load on an unreadable cache file
    | RequestError       // requests.get could not reach the server
    | FileNotFoundError  // open(path, 'w') under a directory that does not exist

  /** Python's `bool(x)` for a decoded JSON value. */
  predicate Truthy(j: Json) {
    match j
    case JNull => false
    case JBool(b) => b
    case JInt(i) => i != 0
    case JStr(s) => s != ""
    case JArr(xs) => xs != []
    case JObj(m) => m != map[]
  }

  /** `x.get(key, default)`: only a dict has `get`. */
  function Get(j: Json, key: string, default: Json): Result<Json, PyError> {
    match j
    case JObj(m) => Success(if key in m then m[key] else default)
    case _ => Failure(AttributeError)
  }

  /** `x[key]` with a string key: a dict raises KeyError for a missing key,
      every other JSON value raises TypeError. */
  function Subscript(j: Json, key: string): Result<Json, PyError> {
    match j
    case JObj(m) => if key in m then Success(m[key]) else Failure(KeyError(key))
    case _ => Failure(TypeError)
  }

  /** Python's `str(x)` for a JSON value. A list or dict is rendered only as a
      bracketed placeholder: its text never consists of digits. */
  function PyStr(j: Json): string {
    match j
    case JNull => "None"
    case JBool(b) => if b then "True" else "False"
    case JInt(i) => IntStr(i)
    case JStr(s) => s
    case JArr(_) => "[...]"
    case JObj(_) => "{...}"
  }
}
