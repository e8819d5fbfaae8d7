/** The optional value used for absent record fields and for effects a handler may or may not produce. */
module Wrappers {
  datatype Option<+T> = None | Some(value: T)
}
