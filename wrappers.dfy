/** Optional values, used where the source yields "nothing" (no element, no visible entry). */
module Wrappers {
  datatype Option<+T> = None | Some(value: T)
}
