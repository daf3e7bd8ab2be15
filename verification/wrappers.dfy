/** The optional-value wrapper used by every module of the model. */
module Wrappers {

  /** A value that may be absent: `undefined` in the source. */
  datatype Option<+T> = None | Some(value: T)
}
