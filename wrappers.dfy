/** The optional value used for fields a JSON body may leave out. */
module Wrappers {

  datatype Option<+T> = None | Some(value: T)
}
