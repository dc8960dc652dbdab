/** Option and Result, the two failure-carrying shapes the model uses in place of
    Python's `None` returns and raised `HTTPException`s. */
module Wrappers {

  datatype Option<+T> = None | Some(value: T)

  datatype Result<+T, +E> = Ok(value: T) | Err(error: E)
}
