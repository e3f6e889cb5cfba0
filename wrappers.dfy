/** The optional value used where the screens hold `null` until something arrives. */
module Wrappers {

  datatype Option<+T> = None | Some(value: T)
}
