/** Optional values and results with an error message, the two outcome
    shapes used throughout the model (a `T | null` and a settled promise). */
module Wrappers {

  datatype Option<+T> = None | Some(value: T)

  /** A settled promise: resolved with a value, or rejected with a message. */
  datatype Result<+T> = Ok(value: T) | Err(message: string)
}
