/** Option and Result, the two failure-carrying types the model uses for
    Python's `None` and for exceptions respectively. */
module Wrappers {

  datatype Option<+T> = None | Some(value: T)

  /** `Failure(message)` stands for a raised exception whose `str()` is `message`. */
  datatype Result<+T, +E> = Success(value: T) | Failure(error: E)
}
