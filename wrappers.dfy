/** Optional values and error-or-value results, used wherever the system
    returns a null pointer, an empty optional, `false` with an error string,
    or throws. */
module Wrappers {
  datatype Option<T> = None | Some(value: T)

  datatype Result<T, E> = Success(value: T) | Failure(error: E)
  {
    predicate IsFailure() { Failure? }
  }
}
