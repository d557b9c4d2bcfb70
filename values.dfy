/** Python values as the tracing engine sees them, and the few Python
    built-ins (truthiness, `in`, `str(int)`) whose behaviour the model
    depends on. */
module Values {

  datatype Option<+T> = None | Some(value: T) {
    function GetOr(default: T): T {
      match this
      case Some(v) => v
      case None => default
    }
  }

  datatype Result<+T, +E> = Success(value: T) | Failure(error: E)

  /** A Python value: JSON-like data, tuples, and plain objects with attributes. */
  datatype Value =
    | Null
    | Bool(b: bool)
    | Int(i: int)
    | Real(r: real)
    | Str(s: string)
    | List(items: seq<Value>)
    | Tuple(elems: seq<Value>)
    | Dict(fields: map<string, Value>)
    | Object(attrs: map<string, Value>)

  /** Python's truth test (`if v:`); plain objects are always true. */
  predicate Truthy(v: Value) {
    match v
    case Null => false
    case Bool(b) => b
    case Int(i) => i != 0
    case Real(r) => r != 0.0
    case Str(s) => s != ""
    case List(xs) => xs != []
    case Tuple(xs) => xs != []
    case Dict(m) => m != map[]
    case Object(_) => true
  }

  /** `hasattr(v, name)`. */
  predicate HasAttr(v: Value, name: string) {
    v.Object? && name in v.attrs
  }

  /** Python's type name, as it appears in TypeError messages. */
  function TypeName(v: Value): string {
    match v
    case Null => "NoneType"
    case Bool(_) => "bool"
    case Int(_) => "int"
    case Real(_) => "float"
    case Str(_) => "str"
    case List(_) => "list"
    case Tuple(_) => "tuple"
    case Dict(_) => "dict"
    case Object(_) => "object"
  }

  predicate IsPrefix(p: string, s: string) {
    |p| <= |s| && s[..|p|] == p
  }

  /** `p in s` for two strings. */
  predicate IsSubstring(p: string, s: string)
    decreases |s|
  {
    IsPrefix(p, s) || (s != [] && IsSubstring(p, s[1..]))
  }

  /** `key in v` for a string key: keys of a dict, elements of a list or
      tuple, substrings of a string; None stands for the TypeError Python
      raises for every other type. */
  function PyContains(v: Value, key: string): (r: Option<bool>)
    ensures r.None? <==> !(v.Dict? || v.List? || v.Tuple? || v.Str?)
    ensures v.Dict? ==> r == Some(key in v.fields)
  {
    match v
    case Dict(m) => Some(key in m)
    case List(xs) => Some(Str(key) in xs)
    case Tuple(xs) => Some(Str(key) in xs)
    case Str(s) => Some(IsSubstring(key, s))
    case _ => None
  }

  /** The elements of `s` that satisfy `keep`, in their original order. */
  function Filter<T>(keep: T -> bool, s: seq<T>): (r: seq<T>)
    ensures |r| <= |s|
    ensures forall i :: 0 <= i < |r| ==> r[i] in s && keep(r[i])
    ensures forall i :: 0 <= i < |s| && keep(s[i]) ==> s[i] in r
    decreases |s|
  {
    if s == [] then []
    else (if keep(s[0]) then [s[0]] else []) + Filter(keep, s[1..])
  }

  lemma {:induction false} FilterAppend<T>(keep: T -> bool, a: seq<T>, b: seq<T>)
    ensures Filter(keep, a + b) == Filter(keep, a) + Filter(keep, b)
    decreases |a|
  {
    if a == [] {
      assert a + b == b;
    } else {
      assert (a + b)[1..] == a[1..] + b;
      FilterAppend(keep, a[1..], b);
    }
  }

  /** Filtering keeps everything exactly when every element is kept. */
  lemma {:induction false} FilterKeepsAll<T>(keep: T -> bool, s: seq<T>)
    ensures Filter(keep, s) == s <==> forall i :: 0 <= i < |s| ==> keep(s[i])
    ensures |Filter(keep, s)| == |s| <==> forall i :: 0 <= i < |s| ==> keep(s[i])
    decreases |s|
  {
    if s != [] {
      FilterKeepsAll(keep, s[1..]);
      if !keep(s[0]) {
        assert |Filter(keep, s)| < |s|;
      } else {
        assert forall i :: 1 <= i < |s| ==> s[i] == s[1..][i - 1];
      }
    }
  }

  /** Splitting a sequence by a predicate loses nothing: what is kept and
      what is dropped together are the original elements. */
  lemma {:induction false} FilterPartition<T>(keep: T -> bool, s: seq<T>)
    ensures multiset(Filter(keep, s)) + multiset(Filter(x => !keep(x), s)) == multiset(s)
    decreases |s|
  {
    if s != [] {
      FilterPartition(keep, s[1..]);
      assert s == [s[0]] + s[1..];
    }
  }

  function DigitChar(d: nat): char
    requires d < 10
  {
    "0123456789"[d]
  }

  /** `str(n)` for a natural number. */
  function NatToDecimal(n: nat): (r: string)
    ensures |r| >= 1
    ensures forall i :: 0 <= i < |r| ==> '0' <= r[i] <= '9'
  {
    if n < 10 then [DigitChar(n)] else NatToDecimal(n / 10) + [DigitChar(n % 10)]
  }

  /** The Python repr of a list of strings, e.g. `['opened', 'closed']`. */
  function StrListRepr(xs: seq<string>): string {
    "[" + JoinQuoted(xs) + "]"
  }

  function JoinQuoted(xs: seq<string>): string {
    if xs == [] then ""
    else if |xs| == 1 then "'" + xs[0] + "'"
    else "'" + xs[0] + "', " + JoinQuoted(xs[1..])
  }
}
