/** An optional value: `None` stands for JavaScript's `null`/`undefined` where the source accepts either. */
module Wrappers {
  datatype Option<+T> = None | Some(value: T)
}
