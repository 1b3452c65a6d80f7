/** What the models share: a C pointer that may be NULL, and an octet. */
module Wrappers {
  datatype Option<+T> = None | Some(value: T)

  type byte = x: int | 0 <= x < 256
}
