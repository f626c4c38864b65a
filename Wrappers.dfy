/** Values that may be missing and computations that may throw. */
module Wrappers {

  /** A C# reference or nullable value: `None` stands for `null`. */
  datatype Option<T> = None | Some(value: T)

  /** The outcome of an operation that either returns a value or throws the exception `error`. */
  datatype Result<T, E> = Success(value: T) | Failure(error: E)
}
