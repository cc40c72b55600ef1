/** Failure-carrying results shared by the modules of the model. */
module Wrappers {

  /** A Java reference that may be `null`. */
  datatype Option<+T> = None | Some(value: T)

  /** The outcome of a Java call declared `throws IOException`. */
  datatype Outcome<+T> = Done(value: T) | Thrown
}
