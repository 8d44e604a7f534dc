/** Failure-carrying datatypes shared by the gridbot model: `Option` for a
    value that may be absent (the empty `lastToot` string of the source is
    `None`) and `Result` for Go's `(value, error)` return pairs. */
module Wrappers {

  datatype Option<+T> = None | Some(value: T)

  datatype Result<+R, +E> = Success(value: R) | Failure(error: E)
}
