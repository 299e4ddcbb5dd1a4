/** Plain datatypes standing in for PHP's nullable values and for calls that return or throw. */
module Results {

  /** A nullable value: `None` is PHP's `null`. */
  datatype Option<+T> = None | Some(value: T)

  /** The outcome of a call that either returns a value or throws. */
  datatype Result<+T, +E> = Success(value: T) | Failure(error: E)
}
