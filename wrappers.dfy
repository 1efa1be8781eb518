/** The optional value used wherever a reading of text may fail. */
module Wrappers {

  datatype Option<+T> = None | Some(value: T)
}
