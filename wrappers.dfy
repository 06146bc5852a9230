/** Optional values and results with an error, for the `None` returns and raised exceptions of the CRM. */
module Wrappers {

  datatype Option<+T> = None | Some(value: T)

  datatype Result<+R, +E> = Success(value: R) | Failure(error: E)
}
