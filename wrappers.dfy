/** The optional value used where the modelled code returns null. */
module Wrappers {

  datatype Option<+T> = None | Some(value: T)
}
