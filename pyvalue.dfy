/**
 * The Python values that the client receives as decoded JSON and passes around
 * as dictionaries, with the bits of Python semantics the application relies on:
 * truthiness, `==` between numbers of different kinds, `dict.get` (which raises
 * AttributeError on anything that is not a dict) and `str()`.
 */
module PyValue {
  import opened Wrappers

  /** A decoded JSON value. Floats are exact reals: NaN and infinities are not modelled. */
  datatype Value =
    | Null
    | Bool(b: bool)
    | Int(i: int)
    | Float(x: real)
    | Str(s: string)
    | List(items: seq<Value>)
    | Obj(fields: map<string, Value>)

  /** Python truthiness: None, False, 0, 0.0, "", [] and {} are false. */
  predicate Truthy(v: Value)
  {
    match v
    case Null => false
    case Bool(b) => b
    case Int(i) => i != 0
    case Float(x) => x != 0.0
    case Str(s) => s != ""
    case List(items) => items != []
    case Obj(fields) => fields != map[]
  }

  /** The numeric view Python uses when comparing: bool is a subclass of int. */
  function Number(v: Value): (r: Option<real>)
    ensures r.Some? <==> (v.Bool? || v.Int? || v.Float?)
  {
    match v
    case Bool(b) => Some(if b then 1.0 else 0.0)
    case Int(i) => Some(i as real)
    case Float(x) => Some(x)
    case _ => None
  }

  /** Python `==`: numbers compare by value whatever their kind, containers element by element. */
  predicate PyEq(a: Value, b: Value)
    decreases a
  {
    match a
    case Null => b.Null?
    case Str(s) => b.Str? && b.s == s
    case List(xs) =>
      b.List? && |xs| == |b.items| && forall i :: 0 <= i < |xs| ==> PyEq(xs[i], b.items[i])
    case Obj(m) =>
      b.Obj? && m.Keys == b.fields.Keys && forall k :: k in m ==> PyEq(m[k], b.fields[k])
    case _ => Number(a).Some? && Number(a) == Number(b)
  }

  /** Python `==` agrees with equality of values: every value equals itself. */
  lemma {:induction false} PyEqReflexive(a: Value)
    ensures PyEq(a, a)
    decreases a
  {
    match a
    case List(xs) =>
      forall i | 0 <= i < |xs| ensures PyEq(xs[i], xs[i]) {
        PyEqReflexive(xs[i]);
      }
    case Obj(m) =>
      forall k | k in m ensures PyEq(m[k], m[k]) {
        PyEqReflexive(m[k]);
      }
    case _ =>
  }

  /** `d.get(key, default)` on a dict `d`: the stored value, or `default` when the key is absent. */
  function Lookup(m: map<string, Value>, key: string, default: Value): Value
  {
    if key in m then m[key] else default
  }

  /**
   * `v.get(key, default)`: None when `v` is not a dict (the call raises
   * AttributeError); otherwise the stored value, or `default` when the key is absent.
   */
  function DictGet(v: Value, key: string, default: Value): Option<Value>
  {
    if v.Obj? then Some(Lookup(v.fields, key, default)) else None
  }

  /**
   * `str(v)`: a string is its own text; the text Python prints for any other value
   * (numbers, None, lists, dicts) is left abstract and supplied as `show`.
   */
  function Text(v: Value, show: Value -> string): string
  {
    if v.Str? then v.s else show(v)
  }
}
