/** Failure-carrying values used where the source returns an optional or throws. */
module Results {

  /** An optional value, as Swift's `T?`. */
  datatype Option<+T> = None | Some(value: T)

  /** A value or the message of the error the source throws instead. */
  datatype Result<+T> = Ok(value: T) | Err(error: string)
}
