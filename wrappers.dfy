/** Optional values and results shared by the modules of the model. */
module Wrappers {

  /** A value that may be absent: JavaScript's `null` or NaN, Python's `None`. */
  datatype Option<+T> = None | Some(value: T)

  /** The outcome of a step that either produces a value or raises an error
      carrying a message. */
  datatype Result<+T> = Ok(value: T) | Err(message: string)
}
