/** Option and Outcome values standing for Java's null and for a checked exception. */
module Wrappers {

  /** `None` plays the part of a Java `null` reference or of a failed parse. */
  datatype Option<+T> = None | Some(value: T)

  /** The result of a `void` method that may throw: `Pass`, or `Fail` with the exception. */
  datatype Outcome<+E> = Pass | Fail(error: E)
}
