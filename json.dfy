/**
 * Decoded JSON documents, as Python's `json` module produces them, and the
 * parts of Python's truthiness rules that the monitor relies on.
 */
module Json {
  import opened Wrappers

  datatype Value =
    | JNull
    | JBool(b: bool)
    | JInt(i: int)
    | JReal(r: real)
    | JStr(s: string)
    | JList(items: seq<Value>)
    | JObj(fields: map<string, Value>)

  /** A decoded JSON object (a Python `dict` with string keys). */
  type Object = map<string, Value>

  /** Python's `bool(v)` on a decoded JSON value. */
  predicate Truthy(v: Value)
  {
    match v
    case JNull => false
    case JBool(b) => b
    case JInt(i) => i != 0
    case JReal(r) => r != 0.0
    case JStr(s) => s != ""
    case JList(items) => items != []
    case JObj(fields) => fields != map[]
  }

  /** Python's `d.get(key, default)`. */
  function Get(d: Object, key: string, default: Value): (v: Value)
    ensures key in d ==> v == d[key]
    ensures key !in d ==> v == default
  {
    if key in d then d[key] else default
  }

  /**
   * The JSON library, `json.dumps` and `json.loads`, which the model does not
   * implement: `decode` gives `None` where `json.loads` raises.
   */
  datatype Codec = Codec(encode: Value -> string, decode: string -> Option<Value>)

  /** Decoding what was encoded gives the value back. */
  ghost predicate Faithful(c: Codec)
  {
    forall v :: c.decode(c.encode(v)) == Some(v)
  }
}
