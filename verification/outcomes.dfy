/** Optional values and fallible results, used wherever the driver returns a
    Go `error` alongside (or instead of) a value. */
module Outcomes {

  datatype Option<+T> = None | Some(value: T)

  datatype Result<+T, +E> = Success(value: T) | Failure(error: E) {
    predicate IsFailure() { Failure? }
  }
}
