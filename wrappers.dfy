/** Failure-carrying return values. Go returns `(value, error)` pairs and bare
    `error`s; here an error is its message text. */
module Wrappers {

  datatype Option<+T> = None | Some(value: T)

  /** `(value, error)`: exactly one of the two is meaningful. */
  datatype Result<+T> = Ok(value: T) | Err(error: string)

  /** A bare Go `error`: Pass is `nil`. */
  datatype Outcome = Pass | Fail(error: string)

  /** The text of `errors.Wrap(cause, msg)` / `errors.Wrapf`: the message, a colon, the cause. */
  function Wrap(msg: string, cause: string): string
  {
    msg + ": " + cause
  }
}

/** Identifiers produced by `uuid.New()` and printed with `String()`. */
module Uuid {

  /** The canonical text form of a UUID always has 36 characters
      (32 hexadecimal digits and four hyphens). */
  type UUID = s: string | |s| == 36 witness "00000000-0000-0000-0000-000000000000"
}
