/** Optional values: `None` stands for JavaScript's `null` (no evidence) and for a `NaN` parse. */
module Wrappers {

  datatype Option<+T> = None | Some(value: T)
}
