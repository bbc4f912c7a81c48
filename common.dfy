/** Small failure-carrying wrappers shared by every module of the model. */
module Common {

  /** A value that may be absent: JavaScript's `null`/`undefined` on one side, a value on the other. */
  datatype Option<+T> = None | Some(value: T)

  /** The outcome of an operation that the source lets throw: `Ok` for a normal return, `Err` for the error. */
  datatype Result<+T, +E> = Ok(value: T) | Err(error: E)

  /** An octet, as stored in a `Uint8Array`. */
  newtype byte = b: int | 0 <= b < 256
}
