/** The optional-value datatype used for the optional fields of a slide record. */
module Wrappers {
  datatype Option<+T> = None | Some(value: T)
}
