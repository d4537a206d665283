/** The option and result types shared by every module of the model. */
module Wrappers {

  datatype Option<+T> = None | Some(value: T)

  /** The source's `(value, error)` pairs: a call either yields a value or an error, never both. */
  datatype Result<+T, +E> = Ok(value: T) | Err(error: E)
}
