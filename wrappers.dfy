/** An optional value: JavaScript's `undefined` (or a failed lookup) is `None`. */
module Wrappers {

  datatype Option<+T> = None | Some(value: T)
}
