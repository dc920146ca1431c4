/** Failure-carrying values shared by the other modules. */
module Wrappers {

  datatype Option<+T> = None | Some(value: T)

  /** The value a request produces, or the error it is refused with. */
  datatype Result<+T, +E> = Success(value: T) | Failure(error: E)

  /** The outcome of a request that produces nothing but may be refused. */
  datatype Outcome<+E> = Pass | Fail(error: E)
}
