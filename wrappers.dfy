/** Failure-carrying wrappers shared by the modules of this project. */
module Wrappers {

  /** A value that may be absent (Python's `None`). */
  datatype Option<+T> = None | Some(value: T)

  /** A value or the error that a Python call would have raised instead. */
  datatype Result<+T, +E> = Ok(value: T) | Err(error: E)
}
