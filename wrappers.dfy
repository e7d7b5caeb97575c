/** Optional values and results with an error, shared by the other modules. */
module Wrappers {

  /** A value that may be absent (a JavaScript `null`, a non-finite number). */
  datatype Option<+T> = None | Some(value: T)

  /** Either an accepted value or the error that rejected it. */
  datatype Result<+T, +E> = Ok(value: T) | Err(error: E)
}
