/** Shared value types: optional values, results, 64-bit integers and instants. */
module Prelude {

  datatype Option<+T> = None | Some(value: T)

  datatype Result<+T, +E> = Success(value: T) | Failure(error: E)

  const TWO_63: int := 0x8000_0000_0000_0000
  const TWO_64: int := 0x1_0000_0000_0000_0000
  const MAX_INT64: int := TWO_63 - 1
  const MIN_INT64: int := -TWO_63

  predicate InInt64(x: int) {
    MIN_INT64 <= x <= MAX_INT64
  }

  /** The values of the program's `int64`. */
  type Int64 = x: int | -0x8000_0000_0000_0000 <= x < 0x8000_0000_0000_0000

  /** The `int64` a computation on `int64` operands ends in: two's complement wrap-around. */
  function Wrap64(x: int): Int64 {
    (x + TWO_63) % TWO_64 - TWO_63
  }

  /** Congruence modulo 2^64. */
  predicate Same64(x: int, y: int) {
    Wrap64(x) == Wrap64(y)
  }

  /** `x` and `y` wrap to the same `int64` exactly when they differ by a multiple of 2^64. */
  lemma Same64Multiple(x: int, y: int)
    ensures Same64(x, y) <==> (x - y) % TWO_64 == 0
  {
  }

  /** Wrapping an operand first does not change the wrapped sum. */
  lemma WrapAbsorbs(x: int, d: int)
    ensures Wrap64(Wrap64(x) + d) == Wrap64(x + d)
  {
  }

  /** Wrapping is the identity exactly on the representable values. */
  lemma WrapExact(x: int)
    ensures Wrap64(x) == x <==> InInt64(x)
  {
  }

  /** An instant, in nanoseconds from the zero time. */
  type Time = int

  type Id = string
}
