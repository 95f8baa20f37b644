/** Option and Result, the two failure-carrying wrappers the model uses for
    "not found" lookups and for the exceptions the bot's code raises. */
module Wrappers {

  datatype Option<+T> = None | Some(value: T)

  datatype Result<+R, +E> = Success(value: R) | Failure(error: E)
}
