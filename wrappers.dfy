/** The optional value used for Swift optionals (`T?`) throughout the model. */
module Wrappers {

  datatype Option<+T> = None | Some(value: T)

}
