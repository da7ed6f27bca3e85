/**
 The two wrapper types the model threads through every operation: an
 optional value, and the outcome of one call that may raise.
 */
module Wrappers {

  datatype Option<+T> = None | Some(value: T)

  /** The outcome of one call into the cloud SDK: its value, or an exception. */
  datatype Outcome<+T> = Done(value: T) | Raised
}
