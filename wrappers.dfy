/** Optional values and failures, the model's stand-ins for `null` and for thrown exceptions. */
module Wrappers {

  /** A possibly-null reference: `None` is `null`. */
  datatype Option<+T> = None | Some(value: T)

  /** The outcome of an operation that may throw: `Err` carries the exception's message. */
  datatype Result<+T> = Ok(value: T) | Err(message: string)
}
