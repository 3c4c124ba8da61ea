/** Option, Result and Outcome: the shapes used for absent values and error paths. */
module Wrappers {

  datatype Option<+T> = None | Some(value: T)

  datatype Result<+R, +E> = Ok(value: R) | Err(error: E)

  /** The result of an operation that either completes or fails with an error. */
  datatype Outcome<+E> = Pass | Fail(error: E)
}
