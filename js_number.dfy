/**
 * JavaScript numbers, abstracted. IEEE-754 rounding is not modelled: a finite
 * number is an exact real. What the code relies on is kept: `parseFloat` can
 * return NaN or an infinity, NaN is `===` to nothing (not even itself), and a
 * comparison with NaN is false.
 */
module JsNumber {
  datatype Number = NaN | Infinity(negative: bool) | Finite(value: real)

  /** `a === b` on two numbers. */
  predicate StrictEquals(a: Number, b: Number) {
    match (a, b)
    case (Finite(x), Finite(y)) => x == y
    case (Infinity(n), Infinity(m)) => n == m
    case _ => false
  }

  /** `a < k` for a numeric literal `k`. */
  predicate LessThan(a: Number, k: real) {
    match a
    case NaN => false
    case Infinity(negative) => negative
    case Finite(x) => x < k
  }

  /** `a > k` for a numeric literal `k`. */
  predicate GreaterThan(a: Number, k: real) {
    match a
    case NaN => false
    case Infinity(negative) => !negative
    case Finite(x) => x > k
  }

  /** NaN is strictly equal to no number, itself included. */
  lemma NaNEqualsNothing(a: Number)
    ensures !StrictEquals(NaN, a) && !StrictEquals(a, NaN)
  {
  }

  /** Away from NaN, `===` is equality of values. */
  lemma StrictEqualsIsEquality(a: Number, b: Number)
    requires !a.NaN?
    ensures StrictEquals(a, b) <==> a == b
  {
  }
}
