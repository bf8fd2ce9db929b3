/** Optional values, for JavaScript's `null`/`undefined`, and the outcome of
    an operation that either produces a value or throws an error message. */
module Wrappers {

  datatype Option<+T> = None | Some(value: T)

  datatype Result<+T> = Ok(value: T) | Err(error: string)
}
