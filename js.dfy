/**
  The slice of JavaScript's value semantics the adapter depends on: falsy and
  nullish values, the `||` and `??` operators, property reads with and
  without optional chaining, `typeof x === 'object'` and `Number.isSafeInteger`.
*/
module Js {

  /** 2^53 - 1, `Number.MAX_SAFE_INTEGER`. */
  const MaxSafeInteger: int := 9007199254740991

  /** A JavaScript number: a finite value (modelled exactly as a real), an infinity or NaN. */
  datatype Number = Finite(value: real) | PositiveInfinity | NegativeInfinity | NaN

  /** A JavaScript value as it can appear in a parsed body, a thrown fault or a handler result. */
  datatype Value =
    | Undefined
    | Null
    | Bool(truth: bool)
    | Num(number: Number)
    | Str(text: string)
    | Array(items: seq<Value>)
    | Object(fields: map<string, Value>)

  /** The number value of an integer. */
  function Int(k: int): Value {
    Num(Finite(k as real))
  }

  predicate IsNullish(v: Value) {
    v.Undefined? || v.Null?
  }

  /** JavaScript truthiness: false, 0, NaN, "", null and undefined are falsy. */
  predicate IsTruthy(v: Value) {
    match v
    case Undefined => false
    case Null => false
    case Bool(b) => b
    case Num(n) => n.PositiveInfinity? || n.NegativeInfinity? || (n.Finite? && n.value != 0.0)
    case Str(s) => s != ""
    case Array(_) => true
    case Object(_) => true
  }

  /** `a || b` */
  function Or(a: Value, b: Value): Value {
    if IsTruthy(a) then a else b
  }

  /** `a ?? b` */
  function Coalesce(a: Value, b: Value): Value {
    if IsNullish(a) then b else a
  }

  /** `typeof v === 'object'`, which holds of null as well as of arrays and objects. */
  predicate IsTypeofObject(v: Value) {
    v.Null? || v.Array? || v.Object?
  }

  /**
    `v[key]` on a value that is not null or undefined. Primitives carry none
    of the property names the adapter reads, so they give undefined.
  */
  function Property(v: Value, key: string): Value
    requires !IsNullish(v)
  {
    if v.Object? && key in v.fields then v.fields[key] else Undefined
  }

  /** `v?.[key]`: undefined when `v` is nullish, otherwise `v[key]`. */
  function OptionalProperty(v: Value, key: string): Value {
    if IsNullish(v) then Undefined else Property(v, key)
  }

  predicate IsIntegral(r: real) {
    r.Floor as real == r
  }

  /** `Number.isSafeInteger(v)` */
  predicate IsSafeInteger(v: Value) {
    && v.Num?
    && v.number.Finite?
    && IsIntegral(v.number.value)
    && -(MaxSafeInteger as real) <= v.number.value <= MaxSafeInteger as real
  }

  /** The integer a safe-integer value denotes. */
  function SafeIntegerValue(v: Value): (k: int)
    requires IsSafeInteger(v)
    ensures Int(k) == v
    ensures -MaxSafeInteger <= k <= MaxSafeInteger
  {
    v.number.value.Floor
  }

  /** An integer's number value is safe exactly when it lies within 2^53 - 1 of zero. */
  lemma SafeIntegerRange(k: int)
    ensures IsSafeInteger(Int(k)) <==> -MaxSafeInteger <= k <= MaxSafeInteger
    ensures IsSafeInteger(Int(k)) ==> SafeIntegerValue(Int(k)) == k
  {
  }

  /** `a || b` keeps a truthy left operand and otherwise yields the right one. */
  lemma OrSelects(a: Value, b: Value)
    ensures IsTruthy(a) ==> Or(a, b) == a
    ensures !IsTruthy(a) ==> Or(a, b) == b
    ensures IsTruthy(Or(a, b)) <== IsTruthy(a) || IsTruthy(b)
  {
  }
}
