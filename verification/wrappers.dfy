/** Optional values and success-or-failure results, used for JavaScript's
    `undefined`/`null` and for exceptions thrown by the services. */
module Wrappers {

  datatype Option<+T> = None | Some(value: T)

  datatype Result<+R, +E> = Success(value: R) | Failure(error: E)
}
