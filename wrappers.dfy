/** The optional value used for the provider's nullable (pointer) fields. */
module Wrappers {

  datatype Option<+T> = None | Some(value: T)
}
