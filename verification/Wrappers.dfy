/** Result types shared by every module. */
module Wrappers {

  datatype Option<+T> = None | Some(value: T)

  datatype Result<+T, +E> = Ok(value: T) | Err(error: E)

  /** A byte as Go's `uint8`. */
  type byte = x: int | 0 <= x < 256

  type Bytes = seq<byte>
}
