/** Optional values and results with an error, as the agents use them:
    `None` stands for Python's `None`, `Err` for a raised `ValueError`. */
module Wrappers {

  datatype Option<+T> = None | Some(value: T)

  datatype Result<+T> = Ok(value: T) | Err(error: string)
}
