/** Small result types shared by the model. */
module Wrappers {

  /** A value that may be absent; `None` stands for Go's `nil`. */
  datatype Option<+T> = None | Some(value: T)

  /** The value of an operation or the error it reported, as Go's `(T, error)` pairs. */
  datatype Outcome<+T, +E> = Ok(value: T) | Err(error: E)
}
