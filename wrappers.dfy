/** The optional value used wherever the source returns "nothing" or a default. */
module Wrappers {
  datatype Option<+T> = None | Some(value: T)
}
