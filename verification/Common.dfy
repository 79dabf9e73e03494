/** Bytes, and the optional and fallible values the other modules share. */
module Common {
  type Byte = b: int | 0 <= b < 256
  type Bytes = seq<Byte>

  const U8: nat := 0x100
  const U32: nat := 0x1_0000_0000

  datatype Option<+T> = None | Some(value: T)

  datatype Result<+T, +E> = Success(value: T) | Failure(error: E)
}
