/** The Option datatype used for the source's `None` returns and failed lookups. */
module Wrappers {

  datatype Option<+T> = None | Some(value: T)
}
