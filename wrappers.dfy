/** Failure-carrying values used throughout the model. */
module Wrappers {

  datatype Option<T> = None | Some(value: T)

  /** The value of a call that returns normally, or the exception it raises. */
  datatype Result<T, E> = Ok(value: T) | Err(error: E)

  /** A call that is made for its effect: it returns, or it raises. */
  datatype Outcome<E> = Pass | Fail(error: E)
}
