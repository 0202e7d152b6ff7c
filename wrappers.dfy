/** Optional values (Java's nullable references) and results (Java's checked exceptions). */
module Wrappers {

  /** A value that may be absent; `None` stands for Java's `null`. */
  datatype Option<+T> = None | Some(value: T)

  /** The outcome of an operation that may abort with an error. */
  datatype Result<+T, +E> = Ok(value: T) | Err(error: E)
}
