/** Go's nil-or-value pointers and `(value, err)` returns, as values. */
module Results {

  /** A Go pointer or optional value that may be nil. */
  datatype Option<+T> = None | Some(value: T)

  /** An error returned by a Docker daemon call; only its message is kept. */
  datatype Error = Error(message: string)

  /** The `(value, err)` pair of a daemon call: exactly one of the two is meaningful. */
  datatype Result<+T> = Ok(value: T) | Err(error: Error)
}
