/** Option and Result, the two failure-carrying shapes the model uses for
    Rust's `Option<T>` and `Result<T, E>`. */
module Wrappers {

  datatype Option<+T> = None | Some(value: T) {
    function GetOr(default: T): T {
      match this
      case Some(v) => v
      case None => default
    }
  }

  datatype Result<+T, +E> = Ok(value: T) | Err(error: E) {
    /** Rust's `Result::ok`: keep the value, drop the error. */
    function ToOption(): Option<T> {
      match this
      case Ok(v) => Some(v)
      case Err(_) => None
    }
  }
}

/** Fixed-width integers of the Rust source, as subset types of `int`. Every
    cast between widths is written out where the source performs one. */
module Ints {
  const U8_LIMIT: int := 0x100
  const U32_LIMIT: int := 0x1_0000_0000
  const U64_LIMIT: int := 0x1_0000_0000_0000_0000
  const I32_LIMIT: int := 0x8000_0000

  newtype u8 = x: int | 0 <= x < 0x100
  newtype u32 = x: int | 0 <= x < 0x1_0000_0000
  newtype u64 = x: int | 0 <= x < 0x1_0000_0000_0000_0000
  newtype i32 = x: int | -0x8000_0000 <= x < 0x8000_0000

  /** `core::num::NonZeroI32`. */
  newtype NonZeroI32 = x: int | x != 0 && -0x8000_0000 <= x < 0x8000_0000 witness 1

  /** Rust's `w as i32` for a `u32`: two's-complement reinterpretation. */
  function U32AsI32(w: u32): (r: i32)
    ensures (w as int) < I32_LIMIT ==> r as int == w as int
    ensures (w as int) >= I32_LIMIT ==> r as int == w as int - U32_LIMIT
  {
    if (w as int) < I32_LIMIT then w as int as i32 else (w as int - U32_LIMIT) as i32
  }

  /** Rust's `w as u32` for an `i32`, the inverse reinterpretation. */
  function I32AsU32(v: i32): (r: u32)
  {
    if v >= 0 then v as int as u32 else (v as int + U32_LIMIT) as u32
  }

  lemma I32RoundTrip(w: u32)
    ensures I32AsU32(U32AsI32(w)) == w
  {
  }
}
