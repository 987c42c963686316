/** Optional values: a JavaScript `null`/`undefined` field or query parameter. */
module Wrappers {

  datatype Option<+T> = None | Some(value: T)
}
