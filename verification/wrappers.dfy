/** The optional-value wrapper used for TypeScript's `T | undefined`. */
module Wrappers {

  /** `None` stands for `undefined`; `Some(v)` for a present value. */
  datatype Option<+T> = None | Some(value: T)
}
