/** The optional value used for request fields that may be absent and for validator outcomes. */
module Wrappers {

  datatype Option<+T> = None | Some(value: T)
}
