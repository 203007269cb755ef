/** Optional values. `None` stands for JavaScript's `null`/`undefined`, and,
    for numbers, for a value that is not finite (NaN or Infinity). */
module Wrappers {

  datatype Option<+T> = None | Some(value: T)
}
