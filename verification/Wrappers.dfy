/** A value that may be missing: null, undefined or NaN in the services. */
module Wrappers {
  datatype Option<+T> = None | Some(value: T)
}
