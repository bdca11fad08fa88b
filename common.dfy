/** Small failure-carrying datatypes shared by every module of the model. */
module Common {
  /** A value that may be missing (Python's `False`/`None` for a relation or a char field). */
  datatype Option<T> = None | Some(value: T)

  /** The result of an operation that either returns a value or raises. */
  datatype Result<T, E> = Ok(value: T) | Err(error: E)

  /** The result of a check that either passes or raises. */
  datatype Outcome<E> = Pass | Fail(error: E)
}
