/** The optional value used throughout the model: JavaScript's `undefined`
    is `None`, a present value `v` is `Some(v)`. */
module Wrappers {

  datatype Option<+T> = None | Some(value: T)

}
