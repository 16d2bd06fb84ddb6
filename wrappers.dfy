/** Option and Result, the two wrappers the service code is written with. */
module Wrappers {
  datatype Option<+T> = None | Some(value: T)

  datatype Result<+T, +E> = Ok(value: T) | Err(error: E)
}

/** Fixed-width integers of the source, as subranges of `int`. */
module Ints {
  newtype u32 = x: int | 0 <= x < 0x1_0000_0000

  newtype i64 = x: int | -0x8000_0000_0000_0000 <= x < 0x8000_0000_0000_0000
}
