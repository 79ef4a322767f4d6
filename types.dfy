/** Fixed-width integer types of the C++ source and the failure-compatible
    wrappers used for its exceptions and optional values. */
module Types {

  type uint8 = x: int | 0 <= x < 0x100
  type uint16 = x: int | 0 <= x < 0x1_0000
  type uint32 = x: int | 0 <= x < 0x1_0000_0000
  type int16 = x: int | -0x8000 <= x < 0x8000

  datatype Option<+T> = None | Some(value: T)

  /** A thrown exception of the source becomes a Failure carrying its cause. */
  datatype Result<+T, +E> = Success(value: T) | Failure(error: E)
}
