/** Result and option types shared by the modules of the model. */
module Prelude {

  datatype Option<+T> = None | Some(value: T)

  /** A thrown error of the source is an `Err`; what it would return is an `Ok`. */
  datatype Result<+T, +E> = Ok(value: T) | Err(error: E)

  function Max(a: int, b: int): int {
    if a < b then b else a
  }
}
