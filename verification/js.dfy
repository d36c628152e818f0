/**
 * The loosely typed values the front end receives from the network and from
 * local storage (`any` in the TypeScript source), with the few JavaScript
 * operators the core applies to them: truthiness, `||`, `??`, property reads,
 * `typeof` and `Array.isArray`.
 */
module Js {
  import opened Text

  /** A JSON-like JavaScript value. Numbers are reals; NaN and the infinities are not modelled. */
  datatype JsValue =
    | Undefined
    | Null
    | Bool(b: bool)
    | Num(n: real)
    | Str(s: string)
    | Arr(items: seq<JsValue>)
    | Obj(props: map<string, JsValue>)

  /** A plain JavaScript object: its own enumerable properties. */
  type JsObject = map<string, JsValue>

  /** JavaScript truthiness: `undefined`, `null`, `false`, `0` and `""` are falsy. */
  predicate Truthy(v: JsValue) {
    match v
    case Undefined => false
    case Null => false
    case Bool(b) => b
    case Num(n) => n != 0.0
    case Str(s) => s != ""
    case Arr(_) => true
    case Obj(_) => true
  }

  /** `a || b`: the left operand when it is truthy, otherwise the right one. */
  function Or(a: JsValue, b: JsValue): JsValue {
    if Truthy(a) then a else b
  }

  /** `a ?? b`: the left operand unless it is `null` or `undefined`. */
  function Nullish(a: JsValue, b: JsValue): JsValue {
    if a.Undefined? || a.Null? then b else a
  }

  /** The property `key` of an object; reading a property JSON values do not carry gives `undefined`. */
  function Get(v: JsValue, key: string): JsValue {
    if v.Obj? && key in v.props then v.props[key] else Undefined
  }

  /** The property `key` of a plain object. */
  function Prop(o: JsObject, key: string): JsValue {
    if key in o then o[key] else Undefined
  }

  /** `typeof v === "object"`: true of `null`, arrays and objects. */
  predicate IsObjectType(v: JsValue) {
    v.Null? || v.Arr? || v.Obj?
  }

  /** `Number.isInteger(v)`. */
  predicate IsInteger(v: JsValue) {
    v.Num? && v.n.Floor as real == v.n
  }

  /** `Object.keys(v).length > 0` for an object-typed, non-null value. */
  predicate HasOwnKeys(v: JsValue) {
    (v.Obj? && |v.props| > 0) || (v.Arr? && |v.items| > 0)
  }

  /** `typeof v === "string" && v.trim()` holds: `v` is a string with a non-whitespace character. */
  predicate NonBlankString(v: JsValue) {
    v.Str? && !IsBlank(v.s)
  }

  /** `v0 || v1 || ... || fallback`: the first truthy value of `vs`, or `fallback` when none is. */
  function FirstTruthy(vs: seq<JsValue>, fallback: JsValue): (r: JsValue)
    ensures (forall i | 0 <= i < |vs| :: !Truthy(vs[i])) ==> r == fallback
    ensures forall i | 0 <= i < |vs| && Truthy(vs[i]) && (forall j | 0 <= j < i :: !Truthy(vs[j])) :: r == vs[i]
  {
    if vs == [] then fallback
    else if Truthy(vs[0]) then vs[0]
    else
      var r := FirstTruthy(vs[1..], fallback);
      assert forall i | 1 <= i < |vs| :: vs[i] == vs[1..][i - 1];
      r
  }

  /** A left-nested chain of four `||` picks the first truthy of its operands. */
  lemma OrChainFirstTruthy(a: JsValue, b: JsValue, c: JsValue, d: JsValue, fallback: JsValue)
    ensures Or(Or(Or(Or(a, b), c), d), fallback) == FirstTruthy([a, b, c, d], fallback)
  {
    calc {
      Or(Or(Or(Or(a, b), c), d), fallback);
      { OrAssociative(Or(Or(a, b), c), d, fallback); }
      Or(Or(Or(a, b), c), Or(d, fallback));
      { OrAssociative(Or(a, b), c, Or(d, fallback)); }
      Or(Or(a, b), Or(c, Or(d, fallback)));
      { OrAssociative(a, b, Or(c, Or(d, fallback))); }
      Or(a, Or(b, Or(c, Or(d, fallback))));
      { FirstTruthyCons(d, [], fallback); assert [d] + [] == [d]; }
      Or(a, Or(b, Or(c, FirstTruthy([d], fallback))));
      { FirstTruthyCons(c, [d], fallback); assert [c] + [d] == [c, d]; }
      Or(a, Or(b, FirstTruthy([c, d], fallback)));
      { FirstTruthyCons(b, [c, d], fallback); assert [b] + [c, d] == [b, c, d]; }
      Or(a, FirstTruthy([b, c, d], fallback));
      { FirstTruthyCons(a, [b, c, d], fallback); assert [a] + [b, c, d] == [a, b, c, d]; }
      FirstTruthy([a, b, c, d], fallback);
    }
  }

  /** `||` is associative. */
  lemma OrAssociative(a: JsValue, b: JsValue, c: JsValue)
    ensures Or(Or(a, b), c) == Or(a, Or(b, c))
  {
  }

  /** One step of `||`: the head when truthy, otherwise the rest of the chain. */
  lemma FirstTruthyCons(v: JsValue, vs: seq<JsValue>, fallback: JsValue)
    ensures FirstTruthy([v] + vs, fallback) == Or(v, FirstTruthy(vs, fallback))
  {
    assert ([v] + vs)[1..] == vs;
  }
}
