/** The optional value used for a row that a lookup may or may not find. */
module Wrappers {

  datatype Option<+T> = None | Some(value: T)

}
