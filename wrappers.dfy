/** Option and Result, the failure-carrying values used throughout the model. */
module Wrappers {

  /** A value that may be absent: JavaScript's `undefined`/`null` for a field or a return. */
  datatype Option<+T> = None | Some(value: T)

  /** The outcome of an operation that can throw. */
  datatype Result<+R, +E> = Success(value: R) | Failure(error: E)

  /** The outcome of a backend call, treated as an oracle: it returned a value, or it threw,
      with the HTTP status of the response when there was one. */
  datatype Call<+T> = Returned(value: T) | Threw(status: Option<int>)
}
