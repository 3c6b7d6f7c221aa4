/** The usual optional value: Java's nullable reference, `null` being None. */
module Wrappers {
  datatype Option<+T> = None | Some(value: T)
}
