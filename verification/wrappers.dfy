/** Failure-compatible wrappers: `Option` for the values the page keeps as `T | null`,
    `Result` for a call that either returns or throws an error with a message. */
module Wrappers {

  datatype Option<+T> = None | Some(value: T)

  datatype Result<+R, +E> = Success(value: R) | Failure(error: E)
}
