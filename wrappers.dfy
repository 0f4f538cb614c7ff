/** Optional values: `None` stands for JavaScript's `undefined` / `null`,
    or for `NaN` where a number failed to parse. */
module Wrappers {

  datatype Option<+T> = None | Some(value: T)
}
