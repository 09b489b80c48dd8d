/** Failure values of the client library: the two exceptions it raises locally,
    and the Option/Result wrappers that stand for Java's nullable references
    and thrown exceptions. */
module Results {

  /** The local exceptions ShizukuService raises. */
  datatype Error =
    | IllegalState(message: string)   // IllegalStateException
    | NullPointer(message: string)    // NullPointerException from Objects.requireNonNull

  /** A Java reference that may be null. */
  datatype Option<T> = None | Some(value: T)

  /** A call that either returns a value or throws one of the local exceptions. */
  datatype Result<T> = Success(value: T) | Failure(error: Error)
}
