/** Optional values and results, shared by every module of the project. */
module Wrappers {
  /** A Go pointer that is either nil or points to a value that is never written through. */
  datatype Option<+T> = None | Some(value: T)

  /** A Go `(value, error)` pair: exactly one of the two is meaningful. */
  datatype Result<+T, +E> = Ok(value: T) | Err(error: E)
}
