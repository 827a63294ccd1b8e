/** Failure-compatible wrappers shared by the scanner and both suggestors. */
module Results {

  /** A value that may be absent. */
  datatype Option<+T> = None | Some(value: T)

  /** The outcome of a computation that can fail with an error of type E. */
  datatype Result<+R, +E> = Success(value: R) | Failure(error: E)
}
