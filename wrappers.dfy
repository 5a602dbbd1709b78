/** Option and Result, used for the optional command-line arguments,
    the optional files on disk and the run's fatal errors. */
module Wrappers {

  datatype Option<+T> = None | Some(value: T)

  datatype Result<+R, +E> = Success(value: R) | Failure(error: E)
}
