/** An optional value: `None` stands for JavaScript's `undefined` (an absent
    query parameter, a missing form field, a dataset entry never written). */
module Wrappers {
  datatype Option<+T> = None | Some(value: T)
}
