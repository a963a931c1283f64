/** Optional values and pass/fail outcomes, the stand-ins for Go's nil pointers and error returns. */
module Wrappers {

  /** A value that may be absent (a Go nil pointer). */
  datatype Option<+T> = None | Some(value: T)

  /** The result of a call that only reports success or an error value. */
  datatype Outcome<+E> = Pass | Fail(error: E)
}
