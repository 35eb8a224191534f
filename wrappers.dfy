/** The optional-value wrapper used wherever the source has a nullable reference. */
module Wrappers {

  datatype Option<+T> = None | Some(value: T)
}
