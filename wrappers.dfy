/** The optional-value datatype used for registry lookups. */
module Wrappers {

  datatype Option<+T> = None | Some(value: T)
}
