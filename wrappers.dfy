/** Optional values: an absent `completedAt`, a parse that produced NaN. */
module Wrappers {

  datatype Option<+T> = None | Some(value: T)
}
