/** The optional value the sensor's read returns in place of Python's `None`. */
module Wrappers {
  datatype Option<+T> = None | Some(value: T)
}
