/** Optional values: a missing date, a JSON field that is null, a parse that fails. */
module Wrappers {

  datatype Option<+T> = None | Some(value: T)
}
