/** Optional values: a JavaScript value that may be absent (undefined, null)
    or, for a parsed date, not a number. */
module Wrappers {

  datatype Option<+T> = None | Some(value: T)
}
