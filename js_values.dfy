/**
 * The part of JavaScript's dynamic values that the widget's client-tool handlers inspect:
 * truthiness, `a || b`, `Array.isArray` and reading a property.
 */
module JsValues {

  datatype JsValue =
    | Undefined
    | Null
    | Bool(b: bool)
    | Num(n: real)   // every number except NaN
    | NaN
    | Str(s: string)
    | Array(elems: seq<JsValue>)
    | Object(props: map<string, JsValue>)

  /** The exception raised by reading a property of `null` or `undefined`. */
  datatype TypeError = ReadPropertyOfNullish

  predicate Nullish(v: JsValue) {
    v.Undefined? || v.Null?
  }

  /** JavaScript's ToBoolean: the falsy values are undefined, null, false, 0, NaN and "". */
  predicate Truthy(v: JsValue) {
    match v
    case Undefined => false
    case Null => false
    case Bool(b) => b
    case Num(n) => n != 0.0
    case NaN => false
    case Str(s) => s != []
    case Array(_) => true
    case Object(_) => true
  }

  /** `a || b`: the first operand when it is truthy, otherwise the second. */
  function Or(a: JsValue, b: JsValue): (r: JsValue)
    ensures Truthy(r) <==> Truthy(a) || Truthy(b)
    ensures Truthy(a) ==> r == a
    ensures !Truthy(a) ==> r == b
  {
    if Truthy(a) then a else b
  }

  /**
   * The value a chain `v0 || v1 || ... || fallback` selects, defined independently of `Or`: the
   * first truthy value of the list, or the fallback when none is.
   */
  function FirstTruthy(vals: seq<JsValue>, fallback: JsValue): (r: JsValue)
    ensures (forall i :: 0 <= i < |vals| ==> !Truthy(vals[i])) ==> r == fallback
    ensures forall i :: 0 <= i < |vals| && Truthy(vals[i]) && (forall j :: 0 <= j < i ==> !Truthy(vals[j])) ==> r == vals[i]
  {
    if vals == [] then fallback
    else if Truthy(vals[0]) then vals[0]
    else
      var r := FirstTruthy(vals[1..], fallback);
      assert forall i :: 1 <= i < |vals| ==> vals[i] == vals[1..][i - 1];
      r
  }

  /**
   * A left-nested `||` chain is a first-truthy search: `(v1 || ... || vn || x) || y` picks the
   * same value as searching `v1, ..., vn, x` with `y` as the last resort.
   */
  lemma {:induction false} OrExtendsFirstTruthy(vals: seq<JsValue>, x: JsValue, y: JsValue)
    ensures Or(FirstTruthy(vals, x), y) == FirstTruthy(vals + [x], y)
  {
    if vals != [] && !Truthy(vals[0]) {
      assert (vals + [x])[1..] == vals[1..] + [x];
      OrExtendsFirstTruthy(vals[1..], x, y);
    }
  }

  /** `a || b` as a first-truthy search. */
  lemma OrIsFirstTruthy(a: JsValue, b: JsValue)
    ensures Or(a, b) == FirstTruthy([a], b)
  {
    OrExtendsFirstTruthy([], a, b);
    assert [] + [a] == [a];
  }

  /** `a || b || fb` as a first-truthy search. */
  lemma OrChainIsFirstTruthy2(a: JsValue, b: JsValue, fb: JsValue)
    ensures Or(Or(a, b), fb) == FirstTruthy([a, b], fb)
  {
    OrExtendsFirstTruthy([], a, b);
    OrExtendsFirstTruthy([a], b, fb);
    assert [] + [a] == [a];
    assert [a] + [b] == [a, b];
  }

  /** `a || b || c || fb` as a first-truthy search. */
  lemma OrChainIsFirstTruthy3(a: JsValue, b: JsValue, c: JsValue, fb: JsValue)
    ensures Or(Or(Or(a, b), c), fb) == FirstTruthy([a, b, c], fb)
  {
    OrChainIsFirstTruthy2(a, b, c);
    OrExtendsFirstTruthy([a, b], c, fb);
    assert [a, b] + [c] == [a, b, c];
  }

  /** `a || b || c || d || fb` as a first-truthy search. */
  lemma OrChainIsFirstTruthy(a: JsValue, b: JsValue, c: JsValue, d: JsValue, fb: JsValue)
    ensures Or(Or(Or(Or(a, b), c), d), fb) == FirstTruthy([a, b, c, d], fb)
  {
    OrChainIsFirstTruthy3(a, b, c, d);
    OrExtendsFirstTruthy([a, b, c], d, fb);
    assert [a, b, c] + [d] == [a, b, c, d];
  }

  /**
   * `v.key` on a value that is not `null`/`undefined` (those throw, so callers check first).
   * Only objects carry the keys the handlers look up; any other value yields `undefined`.
   */
  function Prop(v: JsValue, key: string): (r: JsValue)
    requires !Nullish(v)
    ensures !v.Object? ==> r == Undefined
    ensures v.Object? && key in v.props ==> r == v.props[key]
    ensures v.Object? && key !in v.props ==> r == Undefined
  {
    if v.Object? && key in v.props then v.props[key] else Undefined
  }

  /** A one-property object `{key: value}`. */
  function Single(key: string, value: JsValue): JsValue {
    Object(map[key := value])
  }
}
