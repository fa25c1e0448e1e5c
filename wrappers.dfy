/** Optional values and success-or-error values, used wherever the modelled
    code returns `None`/`null` or raises. */
module Wrappers {

  datatype Option<+T> = None | Some(value: T)

  datatype Result<+R, +E> = Success(value: R) | Failure(error: E)
}
