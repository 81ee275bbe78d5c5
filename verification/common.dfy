/** Values shared by every module of the model: optional values, outcomes, clock readings. */
module Common {

  /** A value that may be absent: JavaScript's `undefined`/`null` become `None`. */
  datatype Option<T> = None | Some(value: T)

  /** The outcome of an operation that either returns a value or throws an error. */
  datatype Result<T, E> = Success(value: T) | Failure(error: E)

  /** A clock reading, passed in wherever the source calls `new Date()`. */
  datatype Instant = Instant(epochMillis: int)
}
