/** Failure-compatible wrappers used for the source's null results and exceptions. */
module Wrappers {

  datatype Option<+T> = None | Some(value: T)

  /** A value or the reason it could not be produced; usable with `:-`. */
  datatype Result<+T, +E> = Success(value: T) | Failure(error: E) {

    predicate IsFailure() {
      Failure?
    }

    function PropagateFailure<U>(): Result<U, E>
      requires Failure?
    {
      Failure(error)
    }

    function Extract(): T
      requires Success?
    {
      value
    }
  }
}

/**
 * Java's fixed-width integers and the conversions the robot code applies to
 * them: `int` and `long` arithmetic wraps around, and the `(int)` cast of a
 * `double` truncates toward zero and saturates at the ends of the `int` range.
 */
module JavaTypes {

  const INT_MIN: int := -0x8000_0000
  const INT_MAX: int := 0x7fff_ffff
  const LONG_MIN: int := -0x8000_0000_0000_0000
  const LONG_MAX: int := 0x7fff_ffff_ffff_ffff

  /** A Java `int`. */
  type Int32 = x: int | INT_MIN <= x <= INT_MAX

  /** A Java `long`. */
  type Int64 = x: int | LONG_MIN <= x <= LONG_MAX

  /** The `int` that two's-complement arithmetic leaves for the exact value `v`. */
  function Wrap32(v: int): (r: Int32)
    ensures (r - v) % 0x1_0000_0000 == 0
    ensures INT_MIN <= v <= INT_MAX ==> r == v
  {
    (v - INT_MIN) % 0x1_0000_0000 + INT_MIN
  }

  /** The `long` that two's-complement arithmetic leaves for the exact value `v`. */
  function Wrap64(v: int): (r: Int64)
    ensures (r - v) % 0x1_0000_0000_0000_0000 == 0
    ensures LONG_MIN <= v <= LONG_MAX ==> r == v
  {
    (v - LONG_MIN) % 0x1_0000_0000_0000_0000 + LONG_MIN
  }

  /** Java `-a` on an `int`. */
  function IntNeg(a: Int32): Int32 {
    Wrap32(-(a as int))
  }

  /** Java `a * b` on `int`s. */
  function IntMul(a: Int32, b: Int32): Int32 {
    Wrap32(a as int * b)
  }

  /** Java `a + b` on `long`s. */
  function LongAdd(a: Int64, b: Int64): Int64 {
    Wrap64(a as int + b)
  }

  /** Java `a - b` on `long`s. */
  function LongSub(a: Int64, b: Int64): Int64 {
    Wrap64(a as int - b)
  }

  function AbsReal(r: real): (a: real)
    ensures a >= 0.0 && (a == r || a == -r)
  {
    if r < 0.0 then -r else r
  }

  /** Rounding toward zero. */
  function Truncate(r: real): (t: int)
    ensures 0.0 <= r ==> t as real <= r < t as real + 1.0
    ensures r < 0.0 ==> t as real - 1.0 < r <= t as real
  {
    if r >= 0.0 then r.Floor else -((-r).Floor)
  }

  /**
   * Java's `(int)` narrowing of a (finite) `double`: round toward zero, then
   * saturate at `Integer.MIN_VALUE` / `Integer.MAX_VALUE`.
   */
  function IntCast(r: real): (n: Int32)
    ensures AbsReal(n as real) <= AbsReal(r)
    ensures 0.0 <= r ==> 0 <= n
    ensures r <= 0.0 ==> n <= 0
    ensures INT_MIN as real <= r <= INT_MAX as real ==> AbsReal(r - n as real) < 1.0
  {
    var t := Truncate(r);
    if t < INT_MIN then INT_MIN else if t > INT_MAX then INT_MAX else t
  }
}
