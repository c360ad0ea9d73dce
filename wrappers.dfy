/** An optional value: `None` stands for JavaScript's `undefined` (a missing field, a missing map entry, `NaN` from a failed parse). */
module Wrappers {

  datatype Option<+T> = None | Some(value: T)
}
