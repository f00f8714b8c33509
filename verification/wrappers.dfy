/** Go's nilable `error` results are modelled as `Option`: `None` stands for `nil`. */
module Wrappers {

  datatype Option<+T> = None | Some(value: T)
}
