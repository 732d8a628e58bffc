/** Failure-carrying wrappers shared by the model. */
module Wrappers {

  /** A value that may be absent; stands for Python's `None` and for the
      "no candidate seen yet" state of a running minimum. */
  datatype Option<+T> = None | Some(value: T)

  /** The outcome of an operation that can raise. */
  datatype Result<+R> = Success(value: R) | Failure(error: string)
}
