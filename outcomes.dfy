/** Optional values and results with an error, standing in for Python's
    `None` returns and for the exceptions the pipeline catches at each call. */
module Outcomes {

  datatype Option<+T> = None | Some(value: T)

  datatype Result<+T, +E> = Ok(value: T) | Err(error: E)
}
