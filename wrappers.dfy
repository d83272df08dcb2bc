/** Option and Result, used wherever the dashboard has a nullable value or a thrown error. */
module Wrappers {

  datatype Option<+T> = None | Some(value: T)

  /** Success carries the value a promise resolves to; Failure the value it rejects with. */
  datatype Result<+R, +E> = Success(value: R) | Failure(error: E)
}
