/** Failure-carrying values used in place of the source's exceptions and optional keys. */
module Wrappers {

  /** A JSON key that may be absent, or a Python argument that may be None. */
  datatype Option<T> = None | Some(value: T)

  /** A value, or the exception that was raised instead of producing it. */
  datatype Result<T, E> = Ok(value: T) | Err(error: E)

  /** A step that either completes or raises. */
  datatype Outcome<E> = Pass | Fail(error: E)
}
