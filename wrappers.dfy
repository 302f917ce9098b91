/** Optional values and results, shared by the other modules. */
module Wrappers {

  /** Go's "may be nil": `None` stands for nil. */
  datatype Option<+T> = None | Some(value: T)

  /** A value or an error message, for Go's `(T, error)` return pairs. */
  datatype Result<+T> = Ok(value: T) | Err(error: string)
}
