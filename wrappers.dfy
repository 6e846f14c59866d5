/** Option and Result, used for Python's `Optional[...]` arguments and for the
    value-or-exception outcome of every handler. */
module Wrappers {

  datatype Option<+T> = None | Some(value: T)

  datatype Result<+T, +E> = Success(value: T) | Failure(error: E)
}
