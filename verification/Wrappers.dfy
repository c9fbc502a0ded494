/** Small types shared by the models. */
module Wrappers {
  datatype Option<+T> = None | Some(value: T)

  type byte = x: int | 0 <= x < 256

  datatype Result<+T, +E> = Ok(value: T) | Err(error: E)
}
