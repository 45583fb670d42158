/** Option and Result, used for JavaScript's `undefined` and for thrown errors. */
module Wrappers {

  /** `None` stands for a JavaScript value that is `undefined` (an absent field). */
  datatype Option<+T> = None | Some(value: T)

  /** `Failure` carries the message of an error the JavaScript code throws or catches. */
  datatype Result<+R, +E> = Success(value: R) | Failure(error: E)
}
