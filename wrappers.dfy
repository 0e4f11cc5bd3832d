/** Failure-carrying values: a Python exception becomes an `Err` carrying its text. */
module Wrappers {

  datatype Option<+T> = None | Some(value: T)

  datatype Result<+T, +E> = Ok(value: T) | Err(error: E)
}
