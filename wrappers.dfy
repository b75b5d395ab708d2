/** The usual Some/None wrapper, for lookups that may miss. */
module Wrappers {
  datatype Option<+T> = None | Some(value: T)
}
