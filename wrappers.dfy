/** Option and Result, the two wrappers the model uses for nullable values
    and for the outcomes of calls into the project client. */
module Wrappers {

  /** A JavaScript value that may be `null`: `None` stands for `null`. */
  datatype Option<+T> = None | Some(value: T)

  /** The SDK's result type: `Success` carries a value, `Failure` an error. */
  datatype Result<+T, +E> = Success(value: T) | Failure(error: E)
}
