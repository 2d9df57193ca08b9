/** The optional value used throughout the model for Go's "value or nothing"
    and "nil or an error" results. */
module Wrappers {

  datatype Option<T> = None | Some(value: T)
}
