/** The JavaScript `null` an optional argument may carry. */
module Wrappers {

  datatype Option<+T> = None | Some(value: T)
}
