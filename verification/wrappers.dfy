/** Optional values, used for the component's nullable references. */
module Wrappers {

  /** `None` plays the part of a reference that is still `null`. */
  datatype Option<+T> = None | Some(value: T)
}
