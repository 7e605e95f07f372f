/** The optional-value datatype used across the model, standing in for Go's
    nil-able pointers and "not found" results. */
module Wrappers {

  datatype Option<+T> = None | Some(value: T)
}
