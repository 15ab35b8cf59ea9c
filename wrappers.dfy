/** Option and Result values standing for JavaScript's `undefined`/`null` and for a
    caught exception. */
module Wrappers {

  datatype Option<+T> = None | Some(value: T)

  datatype Result<+R, +E> = Success(value: R) | Failure(error: E)
}
