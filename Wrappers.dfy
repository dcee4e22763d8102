/** Option and Result, used for nullable references and for thrown errors. */
module Wrappers {

  /** A nullable value: `None` stands for the runtime's null. */
  datatype Option<+T> = None | Some(value: T)

  /** The outcome of an operation that may throw. */
  datatype Result<+T, +E> = Success(value: T) | Failure(error: E)
}
