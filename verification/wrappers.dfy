/** Minimal failure-carrying datatypes used throughout the model. */
module Wrappers {

  /** An optional value: `None` stands for Python's `None` / a missing dict entry. */
  datatype Option<+T> = None | Some(value: T)

  /** The outcome of a computation that may raise. */
  datatype Result<+R, +E> = Success(value: R) | Failure(error: E)
}
