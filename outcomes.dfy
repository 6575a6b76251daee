/** Optional values and results with an error, used wherever the program
    returns `None` or raises an exception instead of producing a value. */
module Outcomes {
  datatype Option<T> = None | Some(value: T)

  datatype Result<T, E> = Success(value: T) | Failure(error: E)
}
