/** Option and Result: the model's form of Go's optional values and error returns. */
module Wrappers {

  datatype Option<+T> = None | Some(value: T)

  datatype Result<+T, +E> = Ok(value: T) | Err(error: E)

  /** One octet. */
  type byte = x: int | 0 <= x < 256
}
