/** The optional value used for SQL NULL, for "no row found" and for PHP's `null` returns. */
module Wrappers {
  datatype Option<+T> = None | Some(value: T)
}
