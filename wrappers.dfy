/** Option and result wrappers shared by the route models. */
module Wrappers {

  /** A JavaScript value that may be `undefined`. */
  datatype Option<+T> = None | Some(value: T)

  /** The outcome of an awaited call: its value, or the message of what it threw. */
  datatype Result<+R, +E> = Success(value: R) | Failure(error: E)

  /** The outcome of an awaited call whose value is not used. */
  datatype Outcome<+E> = Pass | Fail(error: E)
}
