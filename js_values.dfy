/**
  The JavaScript values the reporter inspects, JavaScript truthiness, property
  reads and the `||` operator.
*/
module JsValues {

  /** A JavaScript value; an object is its own enumerable properties. */
  datatype Value =
    | Undef
    | Null
    | Bool(b: bool)
    | Num(n: real)
    | NaN
    | Str(s: string)
    | Arr(elems: seq<Value>)
    | Obj(props: map<string, Value>)

  /** ECMAScript ToBoolean: `undefined`, `null`, `false`, `0`, `NaN` and `''` are falsy. */
  predicate Truthy(v: Value) {
    match v
    case Undef => false
    case Null => false
    case Bool(b) => b
    case Num(n) => n != 0.0
    case NaN => false
    case Str(s) => s != ""
    case Arr(_) => true
    case Obj(_) => true
  }

  /** The property `key` of the record `m`, or `undefined` when it has none. */
  function Field(m: map<string, Value>, key: string): Value {
    if key in m then m[key] else Undef
  }

  /**
    The property read `v.key`. Reading a property of `undefined` or `null`
    throws a TypeError, so callers guard against them; primitives, arrays and
    objects without the property give `undefined`.
  */
  function Get(v: Value, key: string): Value
    requires v != Undef && v != Null
  {
    if v.Obj? then Field(v.props, key) else Undef
  }

  /** The expression `a || b`: `a` when it is truthy, `b` otherwise. */
  function Or(a: Value, b: Value): Value {
    if Truthy(a) then a else b
  }

  /**
    The first truthy value among `candidates`, or `fallback` when none is:
    the meaning of an ordered fallback chain that skips falsy entries.
  */
  function FirstTruthy(candidates: seq<Value>, fallback: Value): (r: Value)
    ensures r in candidates || r == fallback
    ensures r != fallback ==> Truthy(r)
    ensures (exists i :: 0 <= i < |candidates| && Truthy(candidates[i])) ==> Truthy(r)
  {
    if |candidates| == 0 then fallback
    else if Truthy(candidates[0]) then candidates[0]
    else FirstTruthy(candidates[1..], fallback)
  }

  /** The chain stops at the first truthy candidate, whatever follows it. */
  lemma {:induction false} FirstTruthyPicksFirst(candidates: seq<Value>, fallback: Value, i: nat)
    requires i < |candidates| && Truthy(candidates[i])
    requires forall j :: 0 <= j < i ==> !Truthy(candidates[j])
    ensures FirstTruthy(candidates, fallback) == candidates[i]
  {
    if i > 0 {
      assert !Truthy(candidates[0]);
      forall j | 0 <= j < i - 1
        ensures !Truthy(candidates[1..][j])
      {
        assert candidates[1..][j] == candidates[j + 1];
      }
      FirstTruthyPicksFirst(candidates[1..], fallback, i - 1);
    }
  }

  /** An all-falsy chain gives its fallback. */
  lemma {:induction false} FirstTruthyAllFalsy(candidates: seq<Value>, fallback: Value)
    requires forall j :: 0 <= j < |candidates| ==> !Truthy(candidates[j])
    ensures FirstTruthy(candidates, fallback) == fallback
  {
    if |candidates| > 0 {
      assert !Truthy(candidates[0]);
      forall j | 0 <= j < |candidates| - 1
        ensures !Truthy(candidates[1..][j])
      {
        assert candidates[1..][j] == candidates[j + 1];
      }
      FirstTruthyAllFalsy(candidates[1..], fallback);
    }
  }

  /**
    When `last` is truthy, the chain over `candidates` ending in `last`,
    `FirstTruthy(candidates, last)`, equals the chain over `candidates + [last]`
    for any later fallback: that fallback is never reached.
  */
  lemma {:induction false} FirstTruthyTruthyLast(candidates: seq<Value>, last: Value, fallback: Value)
    requires Truthy(last)
    ensures FirstTruthy(candidates, last) == FirstTruthy(candidates + [last], fallback)
  {
    if |candidates| == 0 {
      assert [last][1..] == [];
    } else {
      assert (candidates + [last])[1..] == candidates[1..] + [last];
      FirstTruthyTruthyLast(candidates[1..], last, fallback);
    }
  }

  /** A left-nested `||` chain `a || b || c` is the fallback chain over `[a, b]` ending in `c`. */
  lemma OrChainIsFirstTruthy(a: Value, b: Value, c: Value)
    ensures Or(Or(a, b), c) == FirstTruthy([a, b], c)
  {
    assert [a, b][1..] == [b];
    assert [b][1..] == [];
  }
}
