/** The optional value used for cells, lookups and operations that may fail. */
module Wrappers {

  datatype Option<+T> = None | Some(value: T)
}
