/** Optional values, used for the controller's possibly-null engine resources. */
module Wrappers {
  datatype Option<+T> = None | Some(value: T)
}
