/** Failure-carrying return values, standing in for the exceptions the Java and Python sources throw. */
module Wrappers {

  datatype Option<+T> = None | Some(value: T)

  datatype Result<+R, +E> = Success(value: R) | Failure(error: E)
}
