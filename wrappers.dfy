/** The success-or-error value that replaces Go's `(value, error)` pair. */
module Wrappers {

  datatype Result<+T, +E> = Success(value: T) | Failure(error: E)
}
