/**
 * The JSON-like values that specification dictionaries hold, with the few pieces of
 * Python semantics the validators rely on: `isinstance(v, int)` (a bool is an int),
 * truthiness, and `==` between numbers of different types.
 */
module Json {
  import opened Wrappers

  datatype Json =
    | Null
    | Bool(b: bool)
    | Int(i: int)
    | Float(f: real)
    | Str(s: string)
    | Arr(items: seq<Json>)
    | Obj(fields: map<string, Json>)

  /** `isinstance(v, int)`: Python's bool is a subclass of int. */
  predicate IsPyInt(v: Json) { v.Int? || v.Bool? }

  /** The integer value of an int or a bool (True is 1). */
  function PyIntValue(v: Json): (n: int)
    requires IsPyInt(v)
    ensures v.Int? ==> n == v.i
    ensures v.Bool? ==> (n == 1 <==> v.b) && (n == 0 <==> !v.b)
  {
    if v.Int? then v.i else if v.b then 1 else 0
  }

  /** Python truthiness: None, False, 0, 0.0, "", [] and {} are falsy. */
  predicate Truthy(v: Json)
  {
    match v
    case Null => false
    case Bool(b) => b
    case Int(i) => i != 0
    case Float(f) => f != 0.0
    case Str(s) => s != ""
    case Arr(items) => items != []
    case Obj(fields) => fields != map[]
  }

  /** The numeric value of an int, bool or float, as Python compares them. */
  function NumValue(v: Json): Option<real>
  {
    match v
    case Bool(b) => Some(if b then 1.0 else 0.0)
    case Int(i) => Some(i as real)
    case Float(f) => Some(f)
    case _ => None
  }

  /**
   * Python `==` on two values: numbers compare by value across int, bool and float;
   * everything else compares structurally.
   */
  predicate PyEq(a: Json, b: Json)
  {
    if NumValue(a).Some? && NumValue(b).Some? then NumValue(a).value == NumValue(b).value
    else a == b
  }

  /**
   * Python `==` at every depth: numbers compare by value across int, bool and float, lists
   * element by element, dictionaries key by key; everything else compares structurally.
   */
  predicate PyEqDeep(a: Json, b: Json)
  {
    if NumValue(a).Some? && NumValue(b).Some? then NumValue(a).value == NumValue(b).value
    else match a
      case Arr(xs) =>
        b.Arr? && |xs| == |b.items| && forall i :: 0 <= i < |xs| ==> PyEqDeep(xs[i], b.items[i])
      case Obj(m) =>
        b.Obj? && m.Keys == b.fields.Keys && forall k :: k in m ==> PyEqDeep(m[k], b.fields[k])
      case _ => a == b
  }

  /** Python `==` is reflexive on these values (there is no NaN among them). */
  lemma {:induction false} PyEqDeepReflexive(a: Json)
    ensures PyEqDeep(a, a)
    decreases a
  {
    match a
    case Arr(xs) =>
      forall i | 0 <= i < |xs| ensures PyEqDeep(xs[i], xs[i]) { PyEqDeepReflexive(xs[i]); }
    case Obj(m) =>
      forall k | k in m ensures PyEqDeep(m[k], m[k]) { PyEqDeepReflexive(m[k]); }
    case _ =>
  }

  /** Python `==` is symmetric. */
  lemma {:induction false} PyEqDeepSymmetric(a: Json, b: Json)
    ensures PyEqDeep(a, b) ==> PyEqDeep(b, a)
    decreases a
  {
    if PyEqDeep(a, b) && !(NumValue(a).Some? && NumValue(b).Some?) {
      match a
      case Arr(xs) =>
        forall i | 0 <= i < |xs| ensures PyEqDeep(b.items[i], xs[i]) { PyEqDeepSymmetric(xs[i], b.items[i]); }
      case Obj(m) =>
        forall k | k in b.fields ensures PyEqDeep(b.fields[k], m[k]) { PyEqDeepSymmetric(m[k], b.fields[k]); }
      case _ =>
    }
  }

  /** Pydantic's lax `bool` conversion as modelled here: a bool, or the int 0 or 1. */
  predicate IsLaxBool(v: Json) { v.Bool? || (v.Int? && (v.i == 0 || v.i == 1)) }

  /** The bool a lax `bool` field holds: 1 is true and 0 is false. */
  function LaxBoolValue(v: Json): (b: bool)
    requires IsLaxBool(v)
    ensures v.Bool? ==> b == v.b
    ensures v.Int? ==> (b <==> v.i == 1)
  {
    if v.Bool? then v.b else v.i == 1
  }

  /** `v` is a list of Python ints whose values are `xs`. */
  predicate IsIntListOf(v: Json, xs: seq<int>)
  {
    v.Arr? && |v.items| == |xs| && forall i :: 0 <= i < |xs| ==> IsPyInt(v.items[i]) && PyIntValue(v.items[i]) == xs[i]
  }

  /** `d.get(key)` on a dictionary: the value, or None when the key is missing. */
  function Get(d: map<string, Json>, key: string): (r: Json)
    ensures key in d ==> r == d[key]
    ensures key !in d ==> r == Null
  {
    if key in d then d[key] else Null
  }

  /** True when `v` is `None` or missing. */
  predicate IsNone(v: Json) { v.Null? }

  /** A positive integer as the list validators test it: `isinstance(v, int) and v > 0` (a bool counts). */
  predicate IsPositiveInt(v: Json) { IsPyInt(v) && PyIntValue(v) > 0 }

  /** A list whose every element is a positive int. */
  predicate IsPositiveIntList(v: Json) { v.Arr? && forall i :: 0 <= i < |v.items| ==> IsPositiveInt(v.items[i]) }

  /** The index of the first element that is not a positive int, if any. */
  function FirstNonPositive(items: seq<Json>): (r: Option<nat>)
    ensures r.None? <==> forall i :: 0 <= i < |items| ==> IsPositiveInt(items[i])
    ensures r.Some? ==> r.value < |items| && !IsPositiveInt(items[r.value])
                        && forall j :: 0 <= j < r.value ==> IsPositiveInt(items[j])
  {
    if |items| == 0 then None
    else if !IsPositiveInt(items[0]) then Some(0)
    else match FirstNonPositive(items[1..])
      case None => None
      case Some(k) => Some(k + 1)
  }

  /** The integer values of a list of ints. */
  function IntValues(items: seq<Json>): (r: seq<int>)
    requires forall i :: 0 <= i < |items| ==> IsPyInt(items[i])
    ensures |r| == |items| && forall i :: 0 <= i < |r| ==> r[i] == PyIntValue(items[i])
  {
    seq(|items|, i requires 0 <= i < |items| => PyIntValue(items[i]))
  }

  /** A list of Python ints. */
  function IntList(values: seq<int>): (r: Json)
    ensures r.Arr? && |r.items| == |values|
    ensures forall i :: 0 <= i < |values| ==> r.items[i] == Int(values[i])
  {
    Arr(seq(|values|, i requires 0 <= i < |values| => Int(values[i])))
  }
}
