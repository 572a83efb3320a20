/** The optional-value datatype used for mappings that may be absent or may fail. */
module Wrappers {

  datatype Option<+T> = None | Some(value: T)
}
