/** Option and Result, the two ways the modelled code reports an absent value
    (Python's None) or an error (a raised exception). */
module Wrappers {

  datatype Option<+T> = None | Some(value: T)

  datatype Result<+T, +E> = Success(value: T) | Failure(error: E)
}
