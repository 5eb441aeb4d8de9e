/** Optional values and the error path of operations that raise in the scripts. */
module Wrappers {

  /** A value that may be absent (Python's `None`). */
  datatype Option<+T> = None | Some(value: T)

  /** The outcome of an operation that either returns a value or raises
      an exception carrying a message (`ValueError(msg)`). */
  datatype Result<+T> = Ok(value: T) | Err(message: string)
}
