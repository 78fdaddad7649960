/** Failure-carrying wrappers shared by the whole model. */
module Results {

  /** An optional value, used for "first index with this ID" lookups. */
  datatype Option<+T> = None | Some(value: T)

  /** The outcome of an operation that either yields a value or reports an error. */
  datatype Result<+T, +E> = Ok(value: T) | Err(error: E)
}
