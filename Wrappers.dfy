/** Failure-carrying values shared by the other modules. */
module Wrappers {

  /** Rust's `Option<T>`. */
  datatype Option<+T> = None | Some(value: T)

  /** Rust's `Result<T, E>`. */
  datatype Result<+T, +E> = Ok(value: T) | Err(error: E)
}

/** The fixed-width integer types of the source, as subsets of `int`. */
module Ints {

  /** `u16`, the type of HTTP status codes and error codes. */
  newtype u16 = x: int | 0 <= x < 0x1_0000

  /** `i32`, the integer width of the generated (legacy) schema. */
  newtype i32 = x: int | -0x8000_0000 <= x < 0x8000_0000

  /** `i64`, the integer width of the hand-written domain models. */
  newtype i64 = x: int | -0x8000_0000_0000_0000 <= x < 0x8000_0000_0000_0000

  /** Rust's `i64::from(i32)` (`.into()`): widening, never fails. */
  function Widen(x: i32): (r: i64)
    ensures r as int == x as int
  {
    x as int as i64
  }
}
