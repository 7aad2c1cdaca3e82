/** Optional values: a JSON field or a fetch outcome that may be absent. */
module Wrappers {

  datatype Option<+T> = None | Some(value: T)
}
