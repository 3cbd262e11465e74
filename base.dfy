/** Optional and failure-carrying values shared by the other modules. */
module Base {

  /** A value that may be absent: JavaScript's `undefined`/`null` for a
      missing field, a cache miss, a lookup that found nothing. */
  datatype Option<+T> = None | Some(value: T)

  /** The outcome of an evaluation that may throw. */
  datatype Result<+T, +E> = Success(value: T) | Failure(error: E)
}
