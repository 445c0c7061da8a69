/** Values shared by the storage and command-line models: bytes, optional values,
    results and the `std::io::Error` values the storage backends return. */
module Io {

  /** One byte, as Rust's `u8`. */
  newtype uint8 = x: int | 0 <= x < 256

  type Bytes = seq<uint8>

  datatype Option<+T> = None | Some(value: T)

  datatype Result<+T, +E> = Ok(value: T) | Err(error: E)

  /** The `std::io::ErrorKind` values the core produces. */
  datatype ErrorKind = NotFound | InvalidData | Other

  /** A `std::io::Error`: its kind and the message it was built with. */
  datatype IoError = IoError(kind: ErrorKind, message: string)

  type IoResult<T> = Result<T, IoError>

  function Min(a: nat, b: nat): nat
  {
    if a <= b then a else b
  }
}
