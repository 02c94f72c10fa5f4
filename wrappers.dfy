/** Success/failure wrappers: `Option<Error>` stands for a Go `error` value
    (None is `nil`), `Result` for a value-or-error pair. */
module Wrappers {

  datatype Option<+T> = None | Some(value: T)

  datatype Result<+R, +E> = Success(value: R) | Failure(error: E)
}
