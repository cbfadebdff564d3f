/** Option and result datatypes shared by the model's modules. */
module Wrappers {

  /** A value that may be absent (a JavaScript `undefined`/`null`). */
  datatype Option<+T> = None | Some(value: T)

  /** The outcome of an external call that yields a value or an error message. */
  datatype Result<+R, +E> = Success(value: R) | Failure(error: E)

  /** The outcome of an external call that yields only an error, if any. */
  datatype Outcome<+E> = Pass | Fail(error: E)
}
