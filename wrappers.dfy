/** Small failure-carrying datatypes shared by the LS-8 modules. */
module Wrappers {

  /** A value that may be absent. */
  datatype Option<+T> = None | Some(value: T)

  /** A value, or the error that prevented computing it. */
  datatype Result<+T, +E> = Success(value: T) | Failure(error: E)

  /** The completion of an operation that returns nothing: it passed or failed with an error. */
  datatype Status<+E> = Pass | Fail(error: E)
}
