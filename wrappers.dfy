/** The usual optional-value datatype, used for "no match" and for an absent continuous-move label. */
module Wrappers {
  datatype Option<+T> = None | Some(value: T)
}
