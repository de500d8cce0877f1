/** Success/failure carriers shared by the rest of the model. */
module Wrappers {

  datatype Option<+T> = None | Some(value: T)

  datatype Result<+R, +E> = Success(value: R) | Failure(error: E)

  /** The outcome of an operation that produces no value: it passes or it fails with an error. */
  datatype Outcome<+E> = Pass | Fail(error: E)
}
