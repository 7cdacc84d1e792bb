/** The numbers the bot receives: a Python `int` or `float`.  Integers and
    finite floats are both held exactly as a `real`; the IEEE-754 infinities
    and NaN are kept apart because Python's comparisons and truth test treat
    them specially. */
module Numbers {

  datatype Number = Finite(value: real) | Infinite(negative: bool) | NaN

  /** Python's truth test `bool(n)`: only zero (either sign) is false;
      the infinities and NaN are true. */
  predicate Truthy(n: Number) {
    match n
    case Finite(v) => v != 0.0
    case Infinite(_) => true
    case NaN => true
  }

  /** Python's comparison `n <= 0`: every comparison with NaN is false. */
  predicate AtMostZero(n: Number) {
    match n
    case Finite(v) => v <= 0.0
    case Infinite(negative) => negative
    case NaN => false
  }

  /** Python's `not n` holds for exactly the two zeros, which a `real`
      cannot tell apart. */
  lemma FalsyIsZero(n: Number)
    ensures !Truthy(n) <==> n == Finite(0.0)
  {
  }

  /** `n <= 0` fails for exactly the positive reals, positive infinity and NaN. */
  lemma NotAtMostZero(n: Number)
    ensures !AtMostZero(n) <==> (n.Finite? && n.value > 0.0) || n == Infinite(false) || n == NaN
  {
  }
}
