/** The optional value used wherever the JavaScript source may produce `undefined`. */
module Wrappers {

  /** `None` stands for JavaScript's `undefined` (or a missing property). */
  datatype Option<+T> = None | Some(value: T)
}
