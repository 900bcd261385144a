/** The optional value used where the source passes `undefined` or omits an argument. */
module Wrappers {

  datatype Option<+T> = None | Some(value: T)
}
