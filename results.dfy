/** Optional values and results, with the failure-compatible members that let
    `:-` propagate an error the way an exception propagates in the source; and
    the sampling temperature both back ends pass to the model. */
module Results {

  /** A sampling temperature in tenths: 0.7 is 7. */
  type Tenths = nat

  datatype Option<+T> = None | Some(value: T) {
    function GetOr(default: T): T {
      match this
      case Some(v) => v
      case None => default
    }
  }

  datatype Result<+R, +E> = Success(value: R) | Failure(error: E) {
    predicate IsFailure() {
      Failure?
    }

    function PropagateFailure<U>(): Result<U, E>
      requires Failure?
    {
      Failure(error)
    }

    function Extract(): R
      requires Success?
    {
      value
    }
  }
}
