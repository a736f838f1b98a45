/** The optional value used for "no upstream result" and for the error of a run. */
module Wrappers {
  datatype Option<+T> = None | Some(value: T)
}
