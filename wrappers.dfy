/** The optional value used for the source's `null`-able variables and for parsers that may fail. */
module Wrappers {

  datatype Option<+T> = None | Some(value: T)
}
