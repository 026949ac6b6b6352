/** Decoded JSON values as the client handles them (the Python objects that
    `json.loads` produces), with Python's truthiness and `str()` formatting. */
module Json {
  import Strings

  /** A JSON document after decoding. Objects are Python dictionaries; numbers
      are integers only (floating point is not modelled). */
  datatype Value =
    | Null
    | Bool(b: bool)
    | Num(n: int)
    | Str(s: string)
    | Arr(items: seq<Value>)
    | Obj(fields: map<string, Value>)

  /** Python's `bool(v)`: None, False, 0 and empty strings, lists and dicts are false. */
  predicate Truthy(v: Value)
  {
    match v
    case Null => false
    case Bool(b) => b
    case Num(n) => n != 0
    case Str(s) => s != ""
    case Arr(items) => items != []
    case Obj(fields) => fields != map[]
  }

  /** Python's `str(v)` as an f-string applies it. Scalars are formatted here;
      lists and dicts are formatted by `render`, which stands for Python's own
      container formatting. */
  function Format(v: Value, render: Value -> string): (r: string)
    ensures v.Str? ==> r == v.s
    ensures v.Null? ==> r == "None"
  {
    match v
    case Null => "None"
    case Bool(b) => if b then "True" else "False"
    case Num(n) => Strings.IntToString(n)
    case Str(s) => s
    case _ => render(v)
  }

  /** A two-entry dictionary display `{k1: v1, k2: v2}`. */
  function Pair(k1: string, v1: Value, k2: string, v2: Value): (r: Value)
    requires k1 != k2
    ensures r.Obj? && r.fields.Keys == {k1, k2}
    ensures r.fields[k1] == v1 && r.fields[k2] == v2
  {
    Obj(map[k1 := v1, k2 := v2])
  }

  /** A Python list of values that is shared by reference and grown in place. */
  class ValueList {
    var items: seq<Value>

    constructor (items: seq<Value>)
      ensures this.items == items
    {
      this.items := items;
    }

    /** `list.append(v)`. */
    method Append(v: Value)
      modifies this
      ensures items == old(items) + [v]
    {
      items := items + [v];
    }
  }
}
