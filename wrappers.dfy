/** Option and Result, the two failure-compatible shapes the model uses for
    Rust's `Option` and `Result`, and the unsigned width shared by colours,
    window sizes and clock times. */
module Wrappers {

  datatype Option<+T> = None | Some(value: T)

  datatype Result<+R, +E> = Success(value: R) | Failure(error: E)

  /** A `u32`. */
  type U32 = x: int | 0 <= x < 0x1_0000_0000
}
