/** Option and Result, the two failure-carrying shapes used throughout the model. */
module Wrappers {

  datatype Option<+T> = None | Some(value: T)

  /** Ok carries what a Python call returned, Err what it raised. */
  datatype Result<+T, +E> = Ok(value: T) | Err(error: E)
}
