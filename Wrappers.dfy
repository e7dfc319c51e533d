/** Failure-carrying values: the model's stand-in for Python's `None` and for raised exceptions. */
module Wrappers {

  datatype Option<+T> = None | Some(value: T)

  /** `Ok(value)` is a normal return, `Err(error)` an exception that propagates to the caller. */
  datatype Result<+T, +E> = Ok(value: T) | Err(error: E)
}
