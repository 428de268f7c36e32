/** The dynamic values the routes handle: what a MongoDB document, a parsed
    JSON body or a Python dict holds. Only the Python conversions the backend
    relies on are defined: int(v), bool(v) and str.lower(). */
module Values {
  import opened Wrappers
  import opened Strings

  datatype Value =
    | Null                          // None
    | Bool(b: bool)
    | Int(i: int)
    | Float(f: real)                // a finite float
    | Str(s: string)
    | DateTime(t: int)              // a datetime, as whole seconds since the epoch
    | ObjectId(hex: string)         // a bson ObjectId, by its hex string
    | Dict(entries: map<string, Value>)
    | List(items: seq<Value>)

  type Document = map<string, Value>

  /** dict.get(key): None when the key is absent. */
  function Get(d: Document, key: string): Value {
    if key in d then d[key] else Null
  }

  /** int(x) of a float: truncation toward zero. */
  function Trunc(f: real): (r: int)
    ensures f >= 0.0 ==> r as real <= f < r as real + 1.0
    ensures f < 0.0 ==> r as real - 1.0 < f <= r as real
  {
    if f >= 0.0 then f.Floor else -((-f).Floor)
  }

  /** Python int(v); None where it raises (TypeError or ValueError). A bool is
      an int, so int(True) == 1. */
  function PyInt(v: Value): (r: Option<int>)
    ensures v.Int? ==> r == Some(v.i)
    ensures v.Null? || v.Dict? || v.List? || v.DateTime? || v.ObjectId? ==> r == None
  {
    match v
    case Int(i) => Some(i)
    case Bool(b) => Some(if b then 1 else 0)
    case Float(f) => Some(Trunc(f))
    case Str(s) => PyIntOfString(s)
    case _ => None
  }

  /** Python str(v) of a scalar or an ObjectId; None for a value whose str()
      this model does not spell out. */
  function PyStr(v: Value): Option<string> {
    match v
    case Null => Some("None")
    case Bool(b) => Some(if b then "True" else "False")
    case Int(i) => Some(IntToString(i))
    case Str(s) => Some(s)
    case ObjectId(h) => Some(h)
    case _ => None
  }

  /** Python str(v): PyStr's text where it is spelled out, and `other`'s
      for the remaining values. */
  function StrOf(v: Value, other: Value -> string): string {
    if PyStr(v).Some? then PyStr(v).value else other(v)
  }

  /** Python bool(v). */
  predicate PyTruthy(v: Value) {
    match v
    case Null => false
    case Bool(b) => b
    case Int(i) => i != 0
    case Float(f) => f != 0.0
    case Str(s) => s != ""
    case DateTime(_) => true
    case ObjectId(_) => true
    case Dict(m) => m != map[]
    case List(xs) => xs != []
  }

  /** hash(v) succeeds: lists and dicts are unhashable, so using one as a
      dict key raises TypeError. */
  predicate Hashable(v: Value) {
    !v.List? && !v.Dict?
  }

  /** Python `v or default` on a value. */
  function OrValue(v: Value, default: Value): (r: Value)
    ensures PyTruthy(v) ==> r == v
    ensures !PyTruthy(v) ==> r == default
  {
    if PyTruthy(v) then v else default
  }
}
