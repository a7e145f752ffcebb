/** The optional value used for lookups that may find nothing (a missing
    storage key, an unset attribute). */
module Wrappers {
  datatype Option<+T> = None | Some(value: T)
}
