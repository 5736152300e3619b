/** Small result types shared by the other modules. */
module Wrappers {

  /** A value that may be absent: JavaScript's `null` / `undefined`. */
  datatype Option<+T> = None | Some(value: T)

  /** What the session controller sees of a remote call: the awaited value,
      or an exception caught by its `try`/`catch`. */
  datatype Outcome<+T> = Success(value: T) | Failure
}
