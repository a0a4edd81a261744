/** Failure-carrying results: a Java `null` return becomes `Option`, a thrown exception becomes `Result.Failure`. */
module Wrappers {

  datatype Option<+T> = None | Some(value: T)

  datatype Result<+T, +E> = Success(value: T) | Failure(error: E)
}
