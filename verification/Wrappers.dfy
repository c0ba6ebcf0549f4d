/** Failure-carrying values used by every other module. */
module Wrappers {

  datatype Option<+T> = None | Some(value: T)

  /** `Err` stands for the exception a source operation throws. */
  datatype Result<+T, +E> = Ok(value: T) | Err(error: E)
}
