/** The optional-value and value-or-error datatypes used throughout the model. */
module Wrappers {

  /** An optional value; `None` plays the role of JavaScript's `undefined`. */
  datatype Option<+T> = None | Some(value: T)

  /** Either a value or the error that was raised instead of it. */
  datatype Result<+R, +E> = Success(value: R) | Failure(error: E)
}
