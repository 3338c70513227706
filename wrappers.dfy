/** Optional values (a prop that may be left out, a nullable slot) and
    results (a value, or the message of an error the code throws). */
module Wrappers {

  datatype Option<+T> = None | Some(value: T) {
    /** The value if present, else `default` (JavaScript's `x ?? default`). */
    function GetOr(default: T): T {
      match this
      case Some(v) => v
      case None => default
    }
  }

  datatype Result<+T> = Success(value: T) | Failure(message: string)
}
