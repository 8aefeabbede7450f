/** The optional-value datatype used for the outcome of a pattern match. */
module Wrappers {

  datatype Option<+T> = None | Some(value: T)
}
