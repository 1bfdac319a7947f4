/** Failure-compatible wrappers used for Java's `null`-or-value returns. */
module Common {

  /** A value that may be absent; stands for a Java reference that may be null. */
  datatype Option<+T> = None | Some(value: T)

  /** Either a value or an error message; stands for a call that may throw. */
  datatype Result<+T> = Success(value: T) | Failure(error: string)
}
