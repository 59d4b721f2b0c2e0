/** Optional values, standing for the source's nil pointers, nil errors and comma-ok lookups. */
module Wrappers {
  datatype Option<+T> = None | Some(value: T)

  datatype Result<+T, +E> = Ok(value: T) | Err(error: E)
}
