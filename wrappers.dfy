/** Optional values. `None` stands for the quiet-NaN vector the estimator writes
    when no normal can be computed for a point. */
module Wrappers {
  datatype Option<+T> = None | Some(value: T)
}
