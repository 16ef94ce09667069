/** Optional values: a DataFrame column that may be absent, a dictionary entry that may be missing. */
module Wrappers {

  datatype Option<+T> = None | Some(value: T)

}
