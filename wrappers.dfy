/** Optional values and results with an error, shared by every module. */
module Wrappers {

  /** A value that may be absent (`null` / `undefined` in the TypeScript sources). */
  datatype Option<+T> = None | Some(value: T)

  /** The outcome of an operation that throws in the source: a value, or the exception. */
  datatype Result<+R, +E> = Success(value: R) | Failure(error: E)
}
