/**
 * The dynamically typed values the services handle: a YAML configuration after
 * `yaml.safe_load`, a JSON document after `json.loads`, and the exceptions they raise.
 * Dictionary keys are strings; YAML keys of other types are not represented.
 */
module Python {
  import opened Wrappers
  import opened Text

  datatype Value =
    | VNone
    | VBool(b: bool)
    | VInt(i: int)
    | VFloat(f: real)
    | VStr(s: string)
    | VList(items: seq<Value>)
    | VDict(entries: map<string, Value>)

  /** A raised exception: `type(e).__name__` and `str(e)`. */
  datatype Exception = Exception(kind: string, message: string)

  function KeyError(key: string): Exception {
    Exception("KeyError", "'" + key + "'")
  }

  function TypeName(v: Value): string {
    match v
    case VNone => "NoneType"
    case VBool(_) => "bool"
    case VInt(_) => "int"
    case VFloat(_) => "float"
    case VStr(_) => "str"
    case VList(_) => "list"
    case VDict(_) => "dict"
  }

  /** `bool(v)`. */
  predicate Truthy(v: Value) {
    match v
    case VNone => false
    case VBool(b) => b
    case VInt(i) => i != 0
    case VFloat(f) => f != 0.0
    case VStr(s) => s != ""
    case VList(items) => items != []
    case VDict(entries) => entries != map[]
  }

  /** The TypeError of `key in v` for a `v` that is not a container. */
  function NotIterable(v: Value): Exception {
    Exception("TypeError", "argument of type '" + TypeName(v) + "' is not iterable")
  }

  /** `key in v`, which raises TypeError on a container that is not iterable. */
  function Contains(v: Value, key: string): (r: Result<bool, Exception>)
    ensures v.VDict? ==> r == Ok(key in v.entries)
    ensures (v.VNone? || v.VBool? || v.VInt? || v.VFloat?) <==> r.Err?
  {
    match v
    case VDict(entries) => Ok(key in entries)
    case VStr(s) => Ok(HasSubstring(s, key))
    case VList(items) => Ok(VStr(key) in items)
    case _ => Err(NotIterable(v))
  }

  /** `v[key]`. */
  function Subscript(v: Value, key: string): (r: Result<Value, Exception>)
    ensures r.Ok? <==> v.VDict? && key in v.entries
    ensures r.Ok? ==> r.value == v.entries[key]
    ensures v.VDict? && key !in v.entries ==> r == Err(KeyError(key))
  {
    match v
    case VDict(entries) => if key in entries then Ok(entries[key]) else Err(KeyError(key))
    case VStr(_) => Err(Exception("TypeError", "string indices must be integers, not 'str'"))
    case VList(_) => Err(Exception("TypeError", "list indices must be integers or slices, not str"))
    case _ => Err(Exception("TypeError", "'" + TypeName(v) + "' object is not subscriptable"))
  }

  /** The AttributeError for a missing attribute of `v`. */
  function NoAttribute(v: Value, name: string): Exception {
    Exception("AttributeError", "'" + TypeName(v) + "' object has no attribute '" + name + "'")
  }

  /** `v.get(key, default)`: only dictionaries have `get`. */
  function Get(v: Value, key: string, default: Value): (r: Result<Value, Exception>)
    ensures r.Ok? <==> v.VDict?
    ensures !v.VDict? ==> r == Err(NoAttribute(v, "get"))
    ensures v.VDict? ==> r.value == if key in v.entries then v.entries[key] else default
  {
    match v
    case VDict(entries) => Ok(if key in entries then entries[key] else default)
    case _ => Err(NoAttribute(v, "get"))
  }
}
