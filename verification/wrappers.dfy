/** The optional values the source writes as `x?: T` or `undefined`. */
module Wrappers {

  datatype Option<+T> = None | Some(value: T)
}
