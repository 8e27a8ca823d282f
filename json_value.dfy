/**
 * JSON-shaped Python values: every task, result, option set and configuration
 * in the system is a dict of such values, read with `dict.get` and tested for
 * Python truthiness.
 */
module JsonValue {
  import opened Wrappers
  import Text

  datatype Value =
    | JNull
    | JBool(b: bool)
    | JNum(n: int)
    | JReal(r: real)
    | JStr(s: string)
    | JArr(items: seq<Value>)
    | JObj(fields: map<string, Value>)

  /** A Python dict with string keys. */
  type Dict = map<string, Value>

  /** `d.get(key)`: the stored value, or `None` when the key is absent. */
  function Get(d: Dict, key: string): (v: Value)
    ensures key !in d ==> v == JNull
    ensures key in d ==> v == d[key]
  {
    GetOr(d, key, JNull)
  }

  /** `d.get(key, default)`. */
  function GetOr(d: Dict, key: string, default: Value): Value {
    if key in d then d[key] else default
  }

  /** Python's `bool(v)`. */
  predicate Truthy(v: Value) {
    match v
    case JNull => false
    case JBool(b) => b
    case JNum(n) => n != 0
    case JReal(r) => r != 0.0
    case JStr(s) => s != ""
    case JArr(xs) => xs != []
    case JObj(m) => m != map[]
  }

  /** `v == JStr(s)`, the test `task.get("status") == s`. */
  predicate IsStr(v: Value, s: string) {
    v == JStr(s)
  }

  /** A number as Python compares it: `True` is 1, `False` is 0, an int or a float its value. */
  function NumberOf(v: Value): (r: Option<real>)
    ensures r.Some? <==> v.JBool? || v.JNum? || v.JReal?
  {
    match v
    case JBool(b) => Some(if b then 1.0 else 0.0)
    case JNum(n) => Some(n as real)
    case JReal(r) => Some(r)
    case _ => None
  }

  /**
   * Python's `==` on these values: numbers (booleans included) by value,
   * lists element by element, dicts key by key, anything else by identity of kind and content.
   */
  predicate PyEq(a: Value, b: Value)
    decreases a
  {
    match a
    case JNull => b.JNull?
    case JStr(s) => b == JStr(s)
    case JArr(xs) => b.JArr? && |xs| == |b.items| && forall i :: 0 <= i < |xs| ==> PyEq(xs[i], b.items[i])
    case JObj(m) => b.JObj? && m.Keys == b.fields.Keys && forall k :: k in m ==> PyEq(m[k], b.fields[k])
    case _ => NumberOf(b).Some? && NumberOf(a) == NumberOf(b)
  }

  /** Every value equals itself, so structurally equal values are equal in Python too. */
  lemma {:induction false} PyEqReflexive(a: Value)
    ensures PyEq(a, a)
    decreases a
  {
    match a
    case JArr(xs) =>
      forall i | 0 <= i < |xs| ensures PyEq(xs[i], xs[i]) {
        PyEqReflexive(xs[i]);
      }
    case JObj(m) =>
      forall k | k in m ensures PyEq(m[k], m[k]) {
        PyEqReflexive(m[k]);
      }
    case _ =>
  }

  /** `1 == 1.0 == True` in Python, while the three values differ as data. */
  lemma NumbersCompareByValue()
    ensures PyEq(JNum(1), JReal(1.0)) && PyEq(JReal(1.0), JNum(1))
    ensures PyEq(JBool(true), JNum(1)) && PyEq(JNum(1), JBool(true))
    ensures PyEq(JBool(false), JReal(0.0)) && !PyEq(JBool(false), JNum(1))
    ensures !PyEq(JStr("1"), JNum(1)) && !PyEq(JNull, JBool(false))
  {
  }

  /**
   * Timestamps. The source stores `datetime.now().isoformat()` strings and reads
   * them back with `datetime.fromisoformat`; the model stores seconds as `JNum`
   * and treats every other stored value as text `fromisoformat` rejects.
   */
  function Stamp(seconds: int): Value {
    JNum(seconds)
  }

  function ParseTime(v: Value): (t: Option<int>)
    ensures v.JNum? <==> t.Some?
  {
    if v.JNum? then Some(v.n) else None
  }


  /** `len(v)` for the values that have a length; `None` stands for the `TypeError` raised on the others. */
  function Len(v: Value): (r: Option<nat>)
    ensures r.Some? <==> (v.JStr? || v.JArr? || v.JObj?)
  {
    match v
    case JStr(s) => Some(|s|)
    case JArr(xs) => Some(|xs|)
    case JObj(m) => Some(|m|)
    case _ => None
  }

  /**
   * `str(v)` inside an f-string for the scalar values a type or label field
   * plausibly holds; containers are rendered as an opaque placeholder.
   */
  function Show(v: Value): string {
    match v
    case JNull => "None"
    case JStr(s) => s
    case JNum(n) => Text.IntToString(n)
    case JBool(b) => if b then "True" else "False"
    case _ => "<value>"
  }

  /** The name of `type(v)`, as Python's error messages print it. */
  function PyType(v: Value): string {
    match v
    case JNull => "NoneType"
    case JBool(_) => "bool"
    case JNum(_) => "int"
    case JReal(_) => "float"
    case JStr(_) => "str"
    case JArr(_) => "list"
    case JObj(_) => "dict"
  }

  /** `str()` of the AttributeError that calling `.get` raises on a value that is not a dict. */
  function NoGetMessage(v: Value): string {
    "'" + PyType(v) + "' object has no attribute 'get'"
  }

  /** `str()` of the TypeError that `len()` raises on a value without a length. */
  function NoLenMessage(v: Value): string {
    "object of type '" + PyType(v) + "' has no len()"
  }

  /** Lists and dicts have no hash, so using one as a dict key or set member raises TypeError. */
  predicate Hashable(v: Value) {
    !v.JArr? && !v.JObj?
  }

  /** The text of that TypeError. */
  function UnhashableMessage(v: Value): string {
    "unhashable type: '" + PyType(v) + "'"
  }

  /** A Python list of strings. */
  function StrList(xs: seq<string>): (v: Value)
    ensures v.JArr? && |v.items| == |xs|
  {
    JArr(seq(|xs|, i requires 0 <= i < |xs| => JStr(xs[i])))
  }
}
