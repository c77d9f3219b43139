/** The optional value used for a decoded line and for the decoder's answer. */
module Wrappers {

  datatype Option<+T> = None | Some(value: T)
}
