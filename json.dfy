/**
 * Decoded JSON as the Python code holds it after `json.loads` or after the
 * database driver hands back a JSON column: `None`, booleans, integers,
 * floats, strings, lists and dicts. A dict keeps its keys in order (Python
 * dicts iterate in insertion order) and its keys are taken to be distinct.
 */
module Json {
  import opened Wrappers
  import opened Text

  datatype Value =
    | Null
    | Bool(b: bool)
    | Int(i: int)
    | Float(r: real)
    | Str(s: string)
    | Array(items: seq<Value>)
    | Object(fields: seq<(string, Value)>)

  /** `json.loads` on a string: `None` when the text is not valid JSON. */
  type Decoder = string -> Option<Value>

  /** The value stored under `key` in a dict, if the key is present. */
  function Lookup(fields: seq<(string, Value)>, key: string): (r: Option<Value>)
    ensures r.Some? <==> exists i :: 0 <= i < |fields| && fields[i].0 == key
    ensures r.Some? ==> (key, r.value) in fields
  {
    if fields == [] then None
    else if fields[0].0 == key then Some(fields[0].1)
    else Lookup(fields[1..], key)
  }

  /** `d.get(key, default)` on a dict. */
  function Get(fields: seq<(string, Value)>, key: string, default: Value): Value
  {
    Lookup(fields, key).GetOr(default)
  }

  /** Python truthiness of a decoded value. */
  predicate Truthy(v: Value)
  {
    match v
    case Null => false
    case Bool(b) => b
    case Int(i) => i != 0
    case Float(r) => r != 0.0
    case Str(s) => s != ""
    case Array(items) => items != []
    case Object(fields) => fields != []
  }

  /**
   * Python's `str(v)`. Integers, strings, booleans and `None` are spelled out;
   * the spelling of floats, lists and dicts is supplied by `render`.
   */
  function PyStr(v: Value, render: Value -> string): string
  {
    match v
    case Null => "None"
    case Bool(b) => if b then "True" else "False"
    case Int(i) => IntToDecimal(i)
    case Str(s) => s
    case _ => render(v)
  }

  /**
   * What `for x in v` yields: the elements of a list, the one-character
   * strings of a string, the keys of a dict; `None` where Python raises
   * TypeError (numbers, booleans, `None`).
   */
  function Iterate(v: Value): (r: Option<seq<Value>>)
    ensures v.Array? ==> r == Some(v.items)
    ensures v.Str? ==> r.Some? && |r.value| == |v.s| && forall i :: 0 <= i < |v.s| ==> r.value[i] == Str([v.s[i]])
    ensures v.Object? ==> r.Some? && |r.value| == |v.fields| && forall i :: 0 <= i < |v.fields| ==> r.value[i] == Str(v.fields[i].0)
    ensures r.None? <==> !(v.Array? || v.Str? || v.Object?)
  {
    match v
    case Array(items) => Some(items)
    case Str(s) => Some(seq(|s|, i requires 0 <= i < |s| => Str([s[i]])))
    case Object(fields) => Some(seq(|fields|, i requires 0 <= i < |fields| => Str(fields[i].0)))
    case _ => None
  }
}
