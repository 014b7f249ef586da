/** The optional-value datatype used for the opaque codec's partial results
    and for optional close reasons. */
module Wrappers {

  datatype Option<+T> = None | Some(value: T)
}
