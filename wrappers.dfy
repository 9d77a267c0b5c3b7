/** The optional value used wherever the Java code may hold `null`. */
module Wrappers {
  datatype Option<+T> = None | Some(value: T)
}
