/**
 * Python values as the ER constructor receives them: its keyword arguments are
 * dynamically typed, so every `isinstance` test of the validator is made
 * explicit here.
 */
module PyValues {

  /** A Python float as far as comparisons can tell: a finite value, one of the
      two infinities, or NaN. Rounding is not modelled. */
  datatype Float = Finite(v: real) | PosInf | NegInf | NaN

  /** A Python value. `PyBool` is kept apart from `PyInt` because the validator
      treats them differently in one place (the flags) and alike in others. */
  datatype Value =
    | PyBool(b: bool)
    | PyInt(i: int)
    | PyFloat(f: Float)
    | PyStr(s: string)
    | PyList(items: seq<Value>)
    | PyNone

  /** `isinstance(v, int)`: in Python `bool` is a subclass of `int`. */
  predicate IsInt(v: Value) {
    v.PyBool? || v.PyInt?
  }

  /** The integer a Python int stands for; `True` is 1 and `False` is 0. */
  function IntValue(v: Value): (n: int)
    requires IsInt(v)
    ensures v.PyInt? ==> n == v.i
    ensures v.PyBool? ==> (n == 1 <==> v.b) && 0 <= n <= 1
  {
    if v.PyBool? then (if v.b then 1 else 0) else v.i
  }

  /** 2^970: the gap between the two largest finite doubles is 2^971. */
  const TWO_TO_THE_970: int := 0x400000000000000000000000000000000000000000000000000000000000000000000000000000000000000000000000000000000000000000000000000000000000000000000000000000000000000000000000000000000000000000000000000000000000000000000000000000000000000000000000000

  /** 2^1024 - 2^970, halfway between the largest finite double
      (2^1024 - 2^971) and 2^1024. `float(n)` rounds an int to nearest, ties
      to even, so this and every larger magnitude rounds to 2^1024 and the
      conversion raises OverflowError. */
  const FLOAT_OVERFLOW: int := (0x40_0000_0000_0000 - 1) * TWO_TO_THE_970

  /** The int converts to a finite double (`float(n)` does not overflow). */
  predicate IntFitsFloat(n: int) {
    -FLOAT_OVERFLOW < n < FLOAT_OVERFLOW
  }

  /** `isinstance(v, bool)` */
  predicate IsBool(v: Value) {
    v.PyBool?
  }

  /** `isinstance(v, float)`: an int is not a float. */
  predicate IsFloat(v: Value) {
    v.PyFloat?
  }

  /** `isinstance(v, list)` */
  predicate IsList(v: Value) {
    v.PyList?
  }

  /** `x > bound` for a float `x` and a finite bound, under IEEE 754: every
      comparison with NaN is false. */
  predicate Greater(x: Float, bound: real) {
    match x
    case Finite(v) => v > bound
    case PosInf => true
    case NegInf => false
    case NaN => false
  }

  /** `x <= bound` for a float `x` and a finite bound, under IEEE 754. */
  predicate AtMost(x: Float, bound: real) {
    match x
    case Finite(v) => v <= bound
    case PosInf => false
    case NegInf => true
    case NaN => false
  }

  /** The two comparisons are complementary on every float except NaN, for
      which both are false. */
  lemma GreaterOrAtMost(x: Float, bound: real)
    ensures !x.NaN? ==> Greater(x, bound) != AtMost(x, bound)
    ensures x.NaN? ==> !Greater(x, bound) && !AtMost(x, bound)
  {
  }
}
