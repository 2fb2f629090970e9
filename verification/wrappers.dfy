/** Python's `None`-or-value, as used for angles that could not be measured. */
module Wrappers {

  datatype Option<+T> = None | Some(value: T)
}
