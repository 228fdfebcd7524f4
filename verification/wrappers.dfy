/** The optional value used wherever the source tolerates a missing or unparsable input. */
module Wrappers {
  datatype Option<+T> = None | Some(value: T)
}
