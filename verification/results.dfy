/** Option and Result datatypes shared by the model. */
module Results {

  /** A value that may be absent. */
  datatype Option<+T> = None | Some(value: T)

  /** The outcome of an operation that may raise one of the named errors. */
  datatype Result<+R, +E> = Success(value: R) | Failure(error: E)
}
