/** Optional values and settled promises used by the rest of the model. */
module Wrappers {

  /** A value that may be absent (`null`/`undefined` on the JavaScript side). */
  datatype Option<+T> = None | Some(value: T)

  /** The settled state of a promise: resolved with a value or rejected with an error. */
  datatype Result<+R, +E> = Success(value: R) | Failure(error: E) {

    /** Applies `f` to the rejection reason, leaving a resolved value alone. */
    function MapFailure<E2>(f: E -> E2): Result<R, E2>
    {
      match this
      case Success(v) => Success(v)
      case Failure(e) => Failure(f(e))
    }
  }
}
