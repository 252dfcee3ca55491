/** Small shared definitions. */
module Prelude {
  datatype Option<+T> = None | Some(value: T)

  type byte = x: int | 0 <= x < 256

  type Bytes = seq<byte>

  /** An exception object. */
  type Error = int

  function Min(a: int, b: int): int {
    if a < b then a else b
  }
}
