/** A value that may be absent (Java's null reference), and a call that may throw. */
module Wrappers {

  datatype Option<+T> = None | Some(value: T)

  /** A call that either returns a value or lets an exception escape to its caller. */
  datatype Outcome<+T> = Returned(value: T) | Thrown
}
