/** Optional values: a pandas cell that may hold NaN/NaT, a dropdown that may be unset. */
module Wrappers {

  datatype Option<+T> = None | Some(value: T)
}
