/** Failure-carrying values used across the model: Go's `(T, error)` pairs and nil pointers. */
module Results {

  /** A Go value that may be nil. */
  datatype Option<+T> = None | Some(value: T)

  /** A Go `(T, error)` result: either a value or the error's message. */
  datatype Result<+T> = Success(value: T) | Failure(error: string)
}
