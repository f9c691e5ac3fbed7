/** Optional values: a stored preference that may be absent, an inline style that may be unset. */
module Wrappers {

  datatype Option<+T> = None | Some(value: T)
}
