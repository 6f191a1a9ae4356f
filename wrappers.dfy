/** The client's two "maybe" shapes: a TypeScript value that may be `null`, and an
    operation that either produces a value or stops with an error. */
module Wrappers {

  /** `T | null` */
  datatype Option<+T> = None | Some(value: T)

  /** A handler's outcome: the value it goes on with, or the reason it stopped. */
  datatype Result<+T, +E> = Success(value: T) | Failure(error: E)
}
