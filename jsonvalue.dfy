/**
 * The values `json.loads` produces, and the few Python operations the agents
 * apply to them without first checking their type: truthiness, `in`,
 * subscripting, `.get` and `float(...)`. Each of those raises on some shapes
 * of value; the raise is a `PyError`.
 *
 * The JSON parser itself (RFC 8259) is not modelled: every operation that
 * parses takes it as a parameter `parse: Parser`, where `None` stands for the
 * `JSONDecodeError` that `json.loads` raises.
 */
module JsonValue {
  import opened Wrappers
  import opened PyText
  import opened PyDict

  datatype Json =
    | JNull
    | JBool(b: bool)
    | JNum(n: real)
    | JStr(s: string)
    | JArr(items: seq<Json>)
    | JObj(fields: Dict<Json>)

  /** The Python exceptions the modelled code can raise. */
  datatype PyError =
    | TypeError
    | AttributeError
    | KeyError(key: string)
    | ValueError(message: string)
    | DecodeError

  /** `json.loads`, left abstract. */
  type Parser = string -> Option<Json>

  /** Python `float(s)` on a string, left abstract; None is its ValueError. */
  type FloatParser = string -> Option<real>

  /** Python `bool(x)`: empty containers, zero, "", None and False are falsy. */
  predicate Truthy(j: Json) {
    match j
    case JNull => false
    case JBool(b) => b
    case JNum(n) => n != 0.0
    case JStr(s) => s != []
    case JArr(items) => items != []
    case JObj(fields) => fields != []
  }

  /** Python `key in j` for a string `key`: a key test on a dict, an element
      test on a list, a substring test on a string; a TypeError otherwise. */
  function In(key: string, j: Json): (r: Result<bool, PyError>)
    ensures r.Err? <==> j.JNull? || j.JBool? || j.JNum?
  {
    match j
    case JObj(fields) => Ok(HasKey(fields, key))
    case JArr(items) => Ok(JStr(key) in items)
    case JStr(s) => Ok(Contains(s, key))
    case _ => Err(TypeError)
  }

  /** Python `j[key]` for a string `key`. */
  function Subscript(j: Json, key: string): (r: Result<Json, PyError>)
    ensures r.Ok? <==> j.JObj? && HasKey(j.fields, key)
    ensures j.JObj? && !HasKey(j.fields, key) ==> r == Err(KeyError(key))
  {
    match j
    case JObj(fields) =>
      (match Get(fields, key)
       case Some(v) => Ok(v)
       case None => Err(KeyError(key)))
    case _ => Err(TypeError)
  }

  /** Python `j.get(key, default)`: an AttributeError on anything but a dict. */
  function GetAttr(j: Json, key: string, default: Json): (r: Result<Json, PyError>)
    ensures r.Ok? <==> j.JObj?
  {
    match j
    case JObj(fields) => Ok(GetOr(fields, key, default))
    case _ => Err(AttributeError)
  }

  /** Python `float(v)` on a JSON value; None is the TypeError or ValueError it raises. */
  function ToFloat(v: Json, parseFloat: FloatParser): Option<real> {
    match v
    case JNum(n) => Some(n)
    case JBool(b) => Some(if b then 1.0 else 0.0)
    case JStr(s) => parseFloat(s)
    case _ => None
  }

  /** Python `str(v)` inside an f-string: a string is itself, anything else is
      rendered by `show`, which stands for Python's `repr`-like formatting. */
  function Display(v: Json, show: Json -> string): string {
    if v.JStr? then v.s else show(v)
  }
}
