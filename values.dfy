/**
 * Python-level values shared by the backend model: the JSON values that
 * `json.loads` produces, chat messages, and the outcome of a call that may
 * raise. The JSON library and `str()` of non-string values are not modelled;
 * they are supplied as the functions of a `Codec`.
 */
module Values {

  datatype Option<+T> = None | Some(value: T)

  /** A value as decoded from JSON text (a Python dict, list, str, int, float, bool or None). */
  datatype Json =
    | JNull
    | JBool(b: bool)
    | JInt(i: int)
    | JFloat(r: real)
    | JStr(s: string)
    | JList(items: seq<Json>)
    | JObj(fields: map<string, Json>)

  /** A Python dict with string keys. */
  type Dict = map<string, Json>

  /** The result of a Python call: a returned value, or an exception with its message. */
  datatype Outcome<+T> = Returned(value: T) | Raised(error: string) {
    predicate IsFailure() { Raised? }
    function PropagateFailure<U>(): Outcome<U> requires Raised? { Raised(error) }
    function Extract(): T requires Returned? { value }
  }

  /** Python truthiness (`if v:`). */
  predicate Truthy(v: Json) {
    match v
    case JNull => false
    case JBool(b) => b
    case JInt(i) => i != 0
    case JFloat(r) => r != 0.0
    case JStr(s) => s != ""
    case JList(items) => items != []
    case JObj(fields) => fields != map[]
  }

  /**
   * The library functions the backend calls but that are not modelled:
   * `json.loads` (None on a decode error), `json.dumps`, and `str()` of a
   * value that is not a string (Python's repr of dicts, lists and numbers).
   */
  datatype Codec = Codec(
    loads: string -> Option<Json>,
    dumps: Json -> string,
    show: Json -> string)

  /** `str(v)` and f-string interpolation: a string is itself, anything else is shown by the codec. */
  function Str(c: Codec, v: Json): string {
    if v.JStr? then v.s else c.show(v)
  }

  /** `d.get(key, default)` on a dict. */
  function Get(d: Dict, key: string, default: Json): Json {
    if key in d then d[key] else default
  }

  /** Python's name for the type of a value, as it appears in exception messages. */
  function TypeName(v: Json): string {
    match v
    case JNull => "NoneType"
    case JBool(_) => "bool"
    case JInt(_) => "int"
    case JFloat(_) => "float"
    case JStr(_) => "str"
    case JList(_) => "list"
    case JObj(_) => "dict"
  }

  /** `v[key]` with a string key. */
  function Subscript(v: Json, key: string): Outcome<Json> {
    match v
    case JObj(m) => if key in m then Returned(m[key]) else Raised("KeyError: '" + key + "'")
    case JList(_) => Raised("TypeError: list indices must be integers or slices, not str")
    case JStr(_) => Raised("TypeError: string indices must be integers")
    case _ => Raised("TypeError: '" + TypeName(v) + "' object is not subscriptable")
  }

  /** `v.get(key, default)`: only a dict has the method. */
  function GetMethod(v: Json, key: string, default: Json): Outcome<Json> {
    match v
    case JObj(m) => Returned(Get(m, key, default))
    case _ => Raised("AttributeError: '" + TypeName(v) + "' object has no attribute 'get'")
  }

  datatype Role = System | User | Assistant

  /** One entry of a chat history: `{"role": ..., "content": ...}`. */
  datatype Message = Message(role: Role, content: string)

  /** The strings of a sequence, concatenated in order. */
  function Concat(parts: seq<string>): string {
    if parts == [] then "" else parts[0] + Concat(parts[1..])
  }
}
