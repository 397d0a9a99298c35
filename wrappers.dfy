/** Option and Result, the two failure-carrying datatypes the model uses for
    JavaScript's `undefined` and for operations that throw. */
module Wrappers {

  /** None stands for an absent value (`undefined` in the source). */
  datatype Option<+T> = None | Some(value: T)

  /** Err stands for an exception thrown by the source. */
  datatype Result<+T, +E> = Ok(value: T) | Err(error: E)
}
