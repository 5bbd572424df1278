/** The conventional optional value, used for Python's `None`-or-value and for keys that may be missing. */
module Wrappers {

  datatype Option<+T> = None | Some(value: T)
}
