/** An absent value: JavaScript's `null` where the worker compares it directly. */
module Wrappers {

  datatype Option<+T> = None | Some(value: T)
}
