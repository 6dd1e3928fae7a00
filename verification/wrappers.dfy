/** Optional values and results shared by the substitutor model. */
module Wrappers {

  /** An optional value: Go's `*string` that may be `nil`. */
  datatype Option<+T> = None | Some(value: T)

  /** Either a value or the error that replaced it (Go's `(T, error)` pair). */
  datatype Result<+T, +E> = Success(value: T) | Failure(error: E)
}
