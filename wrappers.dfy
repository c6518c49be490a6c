/** The optional value used for "no error", "no request issued" and "onLogin not called". */
module Wrappers {
  datatype Option<+T> = None | Some(value: T)
}
