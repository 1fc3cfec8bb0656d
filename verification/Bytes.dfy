/** Values shared by every component: bytes and optional values. */
module Bytes {

  type byte = x: int | 0 <= x < 256

  datatype Option<+T> = None | Some(value: T)
}
