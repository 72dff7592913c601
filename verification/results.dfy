/** Failure-carrying values used in place of Go's `(value, error)` pairs and nil pointers. */
module Results {

  /** A value that may be absent (a nil pointer, an unset map entry). */
  datatype Option<+T> = None | Some(value: T) {

    /** The carried value, or `default` when absent. */
    function GetOr(default: T): T {
      match this
      case Some(v) => v
      case None => default
    }
  }

  /** Either a value or the error a Go function would return beside a zero value. */
  datatype Result<+T, +E> = Ok(value: T) | Err(error: E) {

    predicate IsFailure() {
      Err?
    }

    function PropagateFailure<U>(): Result<U, E>
      requires Err?
    {
      Err(error)
    }

    function Extract(): T
      requires Ok?
    {
      value
    }
  }

  /** How a Go call ended: with a value, or by panicking (an index out of range, a division by zero, a failed type assertion). */
  datatype Run<+T> = Completed(value: T) | Panicked(reason: string)
}
