/** Option and Result values shared by the modules of this model. */
module Wrappers {

  /** A value that may be absent (Python's None, JavaScript's null). */
  datatype Option<+T> = None | Some(value: T)

  /** Either a computed value or the exception that stopped the computation. */
  datatype Result<+R, +E> = Success(value: R) | Failure(error: E)
}
