/** Optional values and results with an error value, shared by the modules of this model. */
module Results {

  /** A value that may be absent: the model of a Java reference that may be null. */
  datatype Option<+T> = None | Some(value: T)

  /** The outcome of an operation that either returns a value or fails (a thrown exception). */
  datatype Result<+T, +E> = Ok(value: T) | Err(error: E)
}
