/** Failure-compatible wrappers: JavaScript's `undefined`/`null` become `None`,
    a thrown `Error` becomes `Failure`/`Fail`. */
module Wrappers {

  datatype Option<+T> = None | Some(value: T)

  datatype Result<+R, +E> = Success(value: R) | Failure(error: E)

  datatype Outcome<+E> = Pass | Fail(error: E)
}
