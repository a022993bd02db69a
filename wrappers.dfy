/** The optional-value datatype used for JavaScript's `null` references. */
module Wrappers {

  /** `None` stands for `null` (or an absent argument), `Some(v)` for a present value. */
  datatype Option<+T> = None | Some(value: T)
}
