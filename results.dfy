/** Optional values and error results used across the model. */
module Results {

  /** A value that may be absent (a NULL pointer or a missing list in the source). */
  datatype Option<T> = None | Some(value: T)

  /** The outcome of an operation that can fail with a message. */
  datatype Result<T> = Success(value: T) | Failure(error: string)
}
