/** Optional values: the script's `null` for an empty particle slot or a missing image. */
module Wrappers {
  datatype Option<+T> = None | Some(value: T)
}
