/** Failure-compatible wrappers used across the model: JavaScript's
    `undefined`/`null` results become `None`, and the `(err, value)` callback
    convention becomes a `Result`. */
module Wrappers {

  datatype Option<+T> = None | Some(value: T)

  datatype Result<+T, +E> = Success(value: T) | Failure(error: E)
}
