/** The optional-value datatype used for settings the source may leave as `None`. */
module Wrappers {

  datatype Option<+T> = None | Some(value: T)
}
