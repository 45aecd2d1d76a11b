/** Option and Result datatypes shared by the other modules. */
module Wrappers {

  /** An optional value: JavaScript's `undefined` versus a present value. */
  datatype Option<+T> = None | Some(value: T)

  /** A settled computation: the value it resolved to, or the error it rejected with. */
  datatype Result<+T, +E> = Success(value: T) | Failure(error: E)
}
