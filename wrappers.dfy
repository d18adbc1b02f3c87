/** The optional value used for a market snapshot that could not be fetched. */
module Wrappers {
  datatype Option<+T> = None | Some(value: T)
}
