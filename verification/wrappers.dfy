/** Wrappers used throughout the model: Go's `(value, error)`
    pairs become `Result`, and Go's nil-able pointers become `Option`. */
module Wrappers {

  /** A value that may be absent (a nil pointer in the source). */
  datatype Option<+T> = None | Some(value: T)

  /** Either a value or an error (the source's `(T, error)` returns). */
  datatype Result<+T, +E> = Ok(value: T) | Err(error: E)
}
