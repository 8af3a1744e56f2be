/** Optional values, standing for JavaScript's `null` references and for absent outcomes. */
module Wrappers {
  datatype Option<+T> = None | Some(value: T)
}
