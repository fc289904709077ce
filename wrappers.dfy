/** Option and result types shared by the certificate reloader model. */
module Wrappers {

  /** A value that may be absent: stands for Go's nilable `error`. */
  datatype Option<+T> = None | Some(value: T)

  /** Either a value or an error: stands for Go's `(value, error)` return pairs. */
  datatype Result<+T, +E> = Success(value: T) | Failure(error: E)
}
