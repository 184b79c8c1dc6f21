/** The optional value used where the source returns or looks up something that may be absent. */
module Wrappers {

  datatype Option<+T> = None | Some(value: T)
}
