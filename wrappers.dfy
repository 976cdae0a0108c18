/** Option and Result values standing in for JavaScript's `undefined`/`null` and thrown errors. */
module Wrappers {

  /** A value that may be missing: `None` models `undefined` (or `null` from a store lookup). */
  datatype Option<+T> = None | Some(value: T)

  /** The outcome of an awaited promise: `Failure` models a rejection (a thrown error). */
  datatype Result<+R, +E> = Success(value: R) | Failure(error: E)
}
