/** Optional values: a missing spreadsheet cell, an unresolvable timestamp, no match. */
module Wrappers {

  datatype Option<+T> = None | Some(value: T)
}
