/**
 * Java's 32-bit `int`: values, and the wrap-around arithmetic that the
 * mock service's `value + 2`, `Math.abs(...)` and `-1 * ...` perform
 * (two's complement, the high bits of the exact result are discarded).
 */
module JavaInt {

  const MIN: int := -0x8000_0000  // Integer.MIN_VALUE
  const MAX: int := 0x7fff_ffff   // Integer.MAX_VALUE
  const MODULUS: int := 0x1_0000_0000

  type Int32 = x: int | MIN <= x <= MAX

  /** The Java int congruent to `x` modulo 2^32. */
  function Wrap(x: int): (r: Int32)
    ensures (x - r) % MODULUS == 0
    ensures MIN <= x <= MAX ==> r == x
  {
    (x - MIN) % MODULUS + MIN
  }

  /** Java `a + b` on ints. */
  function Add(a: Int32, b: Int32): (r: Int32)
    ensures MIN <= a + b <= MAX ==> r == a + b
    ensures a + b > MAX ==> r == a + b - MODULUS
    ensures a + b < MIN ==> r == a + b + MODULUS
  {
    Wrap(a as int + b)
  }

  /** Java `a * b` on ints. */
  function Mul(a: Int32, b: Int32): (r: Int32)
    ensures (a * b - r) % MODULUS == 0
    ensures MIN <= a * b <= MAX ==> r == a * b
  {
    Wrap(a as int * b)
  }

  /** Java unary `-a` on ints: the negation of MIN is MIN again. */
  function Neg(a: Int32): (r: Int32)
    ensures a != MIN ==> r == -a
    ensures a == MIN ==> r == MIN
  {
    Wrap(-(a as int))
  }

  /**
   * `Math.abs(int)`: `(a < 0) ? -a : a` with Java negation, so the
   * mathematical absolute value for every int except MIN, whose
   * absolute value does not fit and which comes back unchanged.
   */
  function Abs(a: Int32): (r: Int32)
    ensures a != MIN ==> r >= 0 && (r == a || r == -a)
    ensures a == MIN ==> r == MIN
  {
    if a < 0 then Neg(a) else a
  }

  /**
   * Wrap picks the only int congruent to `x` modulo 2^32, which is how the
   * Java Language Specification defines overflowing int arithmetic (the
   * low-order 32 bits of the exact result).
   */
  lemma WrapUnique(x: int, r: Int32)
    requires (x - r) % MODULUS == 0
    ensures r == Wrap(x)
  {
  }

  /** `-1 * a` is Java negation: `-a` except that MIN stays MIN. */
  lemma MulMinusOne(a: Int32)
    ensures Mul(-1, a) == Neg(a)
  {
  }
}
