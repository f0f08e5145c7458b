/** Optional values (Go's nil pointers) and results carrying an error message (Go's `error`). */
module Wrappers {

  /** A value that may be absent, as a Go pointer may be nil. */
  datatype Option<+T> = None | Some(value: T)

  /** Either a value or an error message. */
  datatype Result<+R> = Success(value: R) | Failure(error: string)
}
