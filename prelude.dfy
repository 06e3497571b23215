/** The two sum types of Rust's prelude that every other module uses, and the
    unsigned integer widths the library's records declare. */
module Prelude {

  /** Rust's `Option<T>`. */
  datatype Option<+T> = None | Some(value: T)
  {
    /** `Option::unwrap_or` */
    function UnwrapOr(default: T): (r: T)
      ensures Some? ==> r == value
      ensures None? ==> r == default
    {
      match this
      case Some(v) => v
      case None => default
    }
  }

  /** Rust's `Result<T, E>`. */
  datatype Result<+T, +E> = Ok(value: T) | Err(error: E)

  /** `u16`, the width of HTTP status codes in the library. */
  type U16 = x: int | 0 <= x < 0x1_0000

  /** `usize` on a 64-bit target. */
  type USize = x: int | 0 <= x < 0x1_0000_0000_0000_0000

  /** Rust's unit type `()`, used as the query of requests that send none. */
  datatype Unit = Unit
}
