/** The two result datatypes the model uses: an optional value, and a value or the error that
    replaces it (an exception of the source). */
module Wrappers {

  datatype Option<+T> = None | Some(value: T)

  datatype Result<+T, +E> = Success(value: T) | Failure(error: E)
}
