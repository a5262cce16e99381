/**
 * Python values as the core sees them: the results of parsing JSON or a Python
 * literal. Floats are modelled as exact reals; dictionaries have string keys.
 */
module PyValues {

  datatype Value =
    | Null
    | Bool(b: bool)
    | Int(i: int)
    | Float(x: real)
    | Str(s: string)
    | List(items: seq<Value>)
    | Dict(entries: map<string, Value>)

  /** `isinstance(v, int)`: in Python `bool` is a subclass of `int`, so booleans pass. */
  predicate IsInt(v: Value) {
    v.Bool? || v.Int?
  }

  /** `isinstance(v, (int, float))`. */
  predicate IsNumber(v: Value) {
    IsInt(v) || v.Float?
  }

  /** The number a numeric value stands for in arithmetic (`True` is 1, `False` is 0). */
  function ToReal(v: Value): (r: real)
    requires IsNumber(v)
    ensures v.Bool? ==> r == (if v.b then 1.0 else 0.0)
    ensures v.Int? ==> r == v.i as real
    ensures v.Float? ==> r == v.x
  {
    match v
    case Bool(b) => if b then 1.0 else 0.0
    case Int(i) => i as real
    case Float(x) => x
  }

  /** Python truthiness, `bool(v)`: false exactly for None, False, zero and the empty containers. */
  predicate Truthy(v: Value)
    ensures !Truthy(v) <==> v in {Null, Bool(false), Int(0), Float(0.0), Str(""), List([]), Dict(map[])}
  {
    match v
    case Null => false
    case Bool(b) => b
    case Int(i) => i != 0
    case Float(x) => x != 0.0
    case Str(s) => |s| > 0
    case List(items) => |items| > 0
    case Dict(entries) => |entries| > 0
  }

  /**
   * Python `==`: numbers compare by value across bool, int and float; lists
   * element by element; dictionaries by key set and values, with no regard
   * to insertion order; values of unrelated types are unequal.
   */
  predicate Equal(a: Value, b: Value)
    ensures IsNumber(a) && IsNumber(b) ==> (Equal(a, b) <==> ToReal(a) == ToReal(b))
    ensures Equal(a, b) && !IsNumber(a) ==>
      a.Null? == b.Null? && a.Str? == b.Str? && a.List? == b.List? && a.Dict? == b.Dict?
  {
    if IsNumber(a) && IsNumber(b) then ToReal(a) == ToReal(b)
    else match (a, b)
      case (Null, Null) => true
      case (Str(s), Str(t)) => s == t
      case (List(xs), List(ys)) =>
        |xs| == |ys| && forall i | 0 <= i < |xs| :: Equal(xs[i], ys[i])
      case (Dict(m), Dict(n)) =>
        m.Keys == n.Keys && forall k | k in m :: Equal(m[k], n[k])
      case _ => false
  }

  /** Every value is equal to itself (there is no NaN among the reals). */
  lemma {:induction false} EqualReflexive(v: Value)
    ensures Equal(v, v)
  {
    match v
    case List(xs) =>
      forall i | 0 <= i < |xs| ensures Equal(xs[i], xs[i]) {
        EqualReflexive(xs[i]);
      }
    case Dict(m) =>
      forall k | k in m ensures Equal(m[k], m[k]) {
        EqualReflexive(m[k]);
      }
    case _ =>
  }

  /** `==` is symmetric on these values. */
  lemma {:induction false} EqualSymmetric(a: Value, b: Value)
    ensures Equal(a, b) <==> Equal(b, a)
  {
    if !(IsNumber(a) && IsNumber(b)) {
      match (a, b)
      case (List(xs), List(ys)) =>
        if |xs| == |ys| {
          forall i | 0 <= i < |xs| ensures Equal(xs[i], ys[i]) <==> Equal(ys[i], xs[i]) {
            EqualSymmetric(xs[i], ys[i]);
          }
        }
      case (Dict(m), Dict(n)) =>
        if m.Keys == n.Keys {
          forall k | k in m ensures Equal(m[k], n[k]) <==> Equal(n[k], m[k]) {
            EqualSymmetric(m[k], n[k]);
          }
        }
      case _ =>
    }
  }

  /** Strings are `==` exactly when they are the same string. */
  lemma EqualStrings(s: string, t: string)
    ensures Equal(Str(s), Str(t)) <==> s == t
  {
  }

  /** Dictionaries with different key sets are never `==`. */
  lemma DictsWithDifferentKeysDiffer(m: map<string, Value>, n: map<string, Value>)
    requires m.Keys != n.Keys
    ensures !Equal(Dict(m), Dict(n))
  {
  }

  /** Dictionaries whose values at a shared key are not `==` are not `==` themselves. */
  lemma DictsDifferingAtAKeyDiffer(m: map<string, Value>, n: map<string, Value>, k: string)
    requires k in m && k in n && !Equal(m[k], n[k])
    ensures !Equal(Dict(m), Dict(n))
  {
  }

  /** Lists of different lengths are never `==`. */
  lemma ListsOfDifferentLengthsDiffer(xs: seq<Value>, ys: seq<Value>)
    requires |xs| != |ys|
    ensures !Equal(List(xs), List(ys))
  {
  }

  /** Lists whose elements at some index are not `==` are not `==` themselves. */
  lemma ListsDifferingAtAnIndexDiffer(xs: seq<Value>, ys: seq<Value>, i: nat)
    requires i < |xs| && i < |ys| && !Equal(xs[i], ys[i])
    ensures !Equal(List(xs), List(ys))
  {
  }

  /** Lists of the same length whose elements are pairwise `==` are `==`. */
  lemma ListsPairwiseEqual(xs: seq<Value>, ys: seq<Value>)
    requires |xs| == |ys| && forall i | 0 <= i < |xs| :: Equal(xs[i], ys[i])
    ensures Equal(List(xs), List(ys))
  {
  }

  /** Dictionaries with the same keys whose values are pairwise `==` are `==`, whatever the insertion order. */
  lemma DictsPairwiseEqual(m: map<string, Value>, n: map<string, Value>)
    requires m.Keys == n.Keys && forall k | k in m :: Equal(m[k], n[k])
    ensures Equal(Dict(m), Dict(n))
  {
  }

  /** `d.get(key, default)`. */
  function Get(d: map<string, Value>, key: string, default: Value): Value {
    if key in d then d[key] else default
  }
}
