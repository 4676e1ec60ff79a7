/** The optional value used wherever the players read `x ?? fallback` or `x?.field`. */
module Wrappers {

  datatype Option<+T> = None | Some(value: T)
}
