/** The JSON payloads that travel between the classifier, the handlers and the key-value store. */
module Json {
  import opened Text

  /** A decoded JSON value; `Null` also stands for Python's `None`. */
  datatype Value =
    | Null
    | Bool(b: bool)
    | Int(i: int)
    | Str(s: string)
    | List(elems: seq<Value>)
    | Dict(entries: map<string, Value>)

  /** A decoded JSON object (a Python `dict` with string keys). */
  type Object = map<string, Value>

  /** Python truthiness: `None`, `False`, `0`, `""`, `[]` and `{}` are false. */
  predicate Truthy(v: Value) {
    match v
    case Null => false
    case Bool(b) => b
    case Int(i) => i != 0
    case Str(s) => s != ""
    case List(e) => e != []
    case Dict(m) => m != map[]
  }

  /** `d.get(k)`: `None` when the key is absent. */
  function Get(d: Object, k: string): Value {
    if k in d then d[k] else Null
  }

  /** `d.get(k, default)`: the default only when the key is absent (a stored `None` is returned as is). */
  function GetOr(d: Object, k: string, default: Value): Value {
    if k in d then d[k] else default
  }

  /** The values `int(v)` accepts without raising. */
  predicate IsIntLike(v: Value) {
    v.Int? || v.Bool? || (v.Str? && IsIntLiteral(v.s))
  }

  /** `int(v)` for the values it accepts. */
  function AsInt(v: Value): (r: int)
    requires IsIntLike(v)
    ensures v.Int? ==> r == v.i
    ensures v.Bool? ==> r == (if v.b then 1 else 0)
  {
    match v
    case Int(i) => i
    case Bool(b) => if b then 1 else 0
    case Str(s) => ParseInt(s)
  }

  /** `int()` reads back every integer, whether the classifier sent it as a number or as its decimal text. */
  lemma AsIntReadsBack(n: int)
    ensures IsIntLike(Int(n)) && AsInt(Int(n)) == n
    ensures IsIntLike(Str(IntToString(n))) && AsInt(Str(IntToString(n))) == n
  {
    IntToStringRoundTrip(n);
  }
}
