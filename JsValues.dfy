/**
 * The JavaScript values the frontend stores in its objects, as far as the
 * code inspects them: truthiness (`||`, `!`, `if`), strict equality (`===`)
 * and property access on objects, with `{ ...a, ...b }` as map union.
 */
module JsValues {

  /**
   * A JavaScript value. Numbers are integers here and objects and arrays are
   * only references, so `===` is equality of `Value`s.
   */
  datatype Value =
    | Undefined
    | Null
    | Bool(b: bool)
    | Num(n: int)
    | Str(s: string)
    | Ref(address: nat)

  /** What `if (v)` and `v || w` test. */
  predicate Truthy(v: Value) {
    match v
    case Undefined => false
    case Null => false
    case Bool(b) => b
    case Num(n) => n != 0
    case Str(s) => s != ""
    case Ref(_) => true
  }

  /** `a || b`: the first operand when it is truthy, otherwise the second. */
  function Or(a: Value, b: Value): (r: Value)
    ensures Truthy(r) <==> Truthy(a) || Truthy(b)
    ensures Truthy(a) ==> r == a
    ensures !Truthy(a) ==> r == b
  {
    if Truthy(a) then a else b
  }

  /** A plain object: its own properties. */
  type Object = map<string, Value>

  /** `o[k]`: a missing property reads as `undefined`. */
  function Get(o: Object, k: string): (v: Value)
    ensures k !in o ==> v == Undefined
    ensures k in o ==> v == o[k]
  {
    if k in o then o[k] else Undefined
  }

  /** `{ ...a, ...b }`: the properties of both, those of `b` winning. */
  function Spread(a: Object, b: Object): (r: Object)
    ensures r.Keys == a.Keys + b.Keys
    ensures forall k :: k in b ==> Get(r, k) == b[k]
    ensures forall k :: k !in b ==> Get(r, k) == Get(a, k)
  {
    a + b
  }

  /**
   * What `Number(s)` (or the coercion in `s < 1`) makes of a string: a real
   * number or `NaN`. The conversion itself is a parameter of the operations
   * that use it.
   */
  datatype Number = NaN | Real(value: real)

  /** `x < bound`: false when `x` is `NaN`. */
  predicate Less(x: Number, bound: real) {
    x.Real? && x.value < bound
  }

  /** `x > bound`: false when `x` is `NaN`. */
  predicate Greater(x: Number, bound: real) {
    x.Real? && x.value > bound
  }
}
