/** The optional value used wherever the monitor may have nothing to report. */
module Wrappers {
  datatype Option<+T> = None | Some(value: T)
}
