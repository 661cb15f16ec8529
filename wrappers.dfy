/** Option and Result, used for `T | null` values and for thrown errors. */
module Wrappers {

  /** `None` stands for JavaScript's `null` (and, where the TypeScript code lets the two meet, `undefined`). */
  datatype Option<+T> = None | Some(value: T)

  /** `Failure` stands for an exception thrown by the TypeScript code. */
  datatype Result<+R, +E> = Success(value: R) | Failure(error: E)
}
