/** A value that may be missing: an unset array entry, or no pose to steer to. */
module Wrappers {

  datatype Option<T> = None | Some(value: T)
}
