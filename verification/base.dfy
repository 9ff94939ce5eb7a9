/** Small shared vocabulary: optional values, success-or-error results and
    bytes. Go's `(value, error)` return pairs are modelled with `Result`. */
module Base {

  datatype Option<+T> = None | Some(value: T)

  datatype Result<+T, +E> = Success(value: T) | Failure(error: E)

  /** One byte of a Go string. */
  type byte = x: int | 0 <= x < 256

}
