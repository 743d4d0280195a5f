/** Option, used for Java's nullable references and for calls that may throw. */
module Wrappers {

  /** `None` stands for a Java `null` reference, or for a call that throws. */
  datatype Option<+T> = None | Some(value: T)
}
