/** Types shared by every part of the marketplace front end. */
module Base {
  /** A value that may be absent: JavaScript's `null`, or a call that threw. */
  datatype Option<+T> = None | Some(value: T)

  /** A value, or the message of the exception thrown instead of it. */
  datatype Result<+T> = Ok(value: T) | Err(message: string)

  /** Account and contract addresses, as the libraries hand them over. */
  type Address = string
}
