/** Option and Result values used throughout the model. A `Result` carries either
    the value a Python expression evaluates to or the exception it raises; the
    members below make it usable with `:-`, which mirrors an exception unwinding
    to the nearest `except` clause. */
module Results {

  datatype Option<+T> = None | Some(value: T)

  datatype Result<+R, +E> = Success(value: R) | Failure(error: E) {

    predicate IsFailure() {
      Failure?
    }

    function PropagateFailure<U>(): Result<U, E>
      requires Failure?
    {
      Failure(error)
    }

    function Extract(): R
      requires Success?
    {
      value
    }
  }
}
