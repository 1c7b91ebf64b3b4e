/** The usual optional-value wrapper, used for references that may still be null. */
module Wrappers {
  datatype Option<+T> = None | Some(value: T)
}
