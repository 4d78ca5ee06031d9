/** Swift's Optional, used for every `T?` of the source. */
module Wrappers {

  datatype Option<+T> = None | Some(value: T)
}
