/** Option and Result, the two failure-carrying datatypes the model uses for
    Python's `None` and for exceptions raised back to a caller. */
module Wrappers {

  datatype Option<+T> = None | Some(value: T)

  datatype Result<+T, +E> = Ok(value: T) | Err(error: E)
}
