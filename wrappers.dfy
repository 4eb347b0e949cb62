/** Optional values and results with an error, used for undefined/null inputs and thrown errors. */
module Wrappers {

  /** `None` stands for a value that is `undefined` or `null`. */
  datatype Option<+T> = None | Some(value: T)

  /** The outcome of a constructor that either returns a value or throws an error. */
  datatype Result<+T, +E> = Ok(value: T) | Err(error: E)
}
