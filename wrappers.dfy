/** Option and Result, used for JavaScript's optional (`undefined`/missing) values and for
    the settled outcome of an awaited service call. */
module Wrappers {

  datatype Option<+T> = None | Some(value: T)

  datatype Result<+T, +E> = Success(value: T) | Failure(error: E)
}
