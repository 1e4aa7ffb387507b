/** Optional values and the outcomes of client calls. */
module Wrappers {
  datatype Option<+T> = None | Some(value: T)

  /** What a call returns to the code that made it: a value, or an error with its text. */
  datatype Result<+T> = Ok(value: T) | Err(message: string)
}
