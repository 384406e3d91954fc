/** The optional value used across the model, for a JavaScript value that may
    be `undefined` or `null` (a missing `choices[0].message.content`, an
    optional project title, a `selectedProject` of `null`), and the outcome of
    a call that may throw. */
module Wrappers {

  datatype Option<+T> = None | Some(value: T) {

    /** The value, or `default` when there is none. */
    function GetOr(default: T): T {
      match this
      case Some(v) => v
      case None => default
    }
  }

  /** A value, or the error a JavaScript function throws instead. */
  datatype Result<+T, +E> = Success(value: T) | Failure(error: E)
}
