/**
 * The slice of Python's value model the client relies on: the values that travel
 * through its option and parameter dictionaries, Python's truthiness (which drives
 * every `x or y` and `if x` in the client), `dict.get`, and a mutable dictionary
 * object for the caller's `params`, which the client updates in place.
 */
module PyValues {

  /** A Python value. `VConnectionClass(secure)` stands for `httplib.HTTPSConnection`
      (secure) or `httplib.HTTPConnection`, the classes stored in the options. */
  datatype Value =
    | VNone
    | VBool(b: bool)
    | VInt(i: int)
    | VStr(s: string)
    | VList(elems: seq<Value>)
    | VDict(entries: map<string, Value>)
    | VConnectionClass(secure: bool)

  /** Python truthiness: `None`, `False`, `0` and empty strings, lists and dicts are false. */
  predicate Truthy(v: Value) {
    match v
    case VNone => false
    case VBool(b) => b
    case VInt(i) => i != 0
    case VStr(s) => s != ""
    case VList(xs) => xs != []
    case VDict(m) => m != map[]
    case VConnectionClass(_) => true
  }

  /** Python's `a or b`: the first operand when it is truthy, otherwise the second. */
  function Or(a: Value, b: Value): (r: Value)
    ensures r == a || r == b
    ensures Truthy(a) ==> r == a
    ensures !Truthy(a) ==> r == b
    ensures Truthy(r) <==> Truthy(a) || Truthy(b)
  {
    if Truthy(a) then a else b
  }

  /** Python's `d.get(k)`: the entry for `k`, or `None` when `k` is absent. */
  function Get(m: map<string, Value>, k: string): (v: Value)
    ensures k in m ==> v == m[k]
    ensures k !in m ==> v == VNone
  {
    if k in m then m[k] else VNone
  }

  /** A Python dictionary object, for dictionaries the client updates in place. */
  class Dict {
    var items: map<string, Value>

    constructor (m: map<string, Value>)
      ensures items == m
    {
      items := m;
    }

    /** `self.get(k)` */
    function Lookup(k: string): Value
      reads this
    {
      Get(items, k)
    }

    /** `self[k] = v` */
    method Set(k: string, v: Value)
      modifies this
      ensures items == old(items)[k := v]
    {
      items := items[k := v];
    }
  }
}
