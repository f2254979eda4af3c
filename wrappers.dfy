/** Failure-compatible helper datatypes used by the routing model. */
module Wrappers {

  /** `None` stands for JavaScript `null`. */
  datatype Option<+T> = None | Some(value: T)

  /** The outcome of an operation that either returns a value or throws an error. */
  datatype Result<+R, +E> = Success(value: R) | Failure(error: E)
}
