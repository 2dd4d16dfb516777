/** Optional values: a JavaScript `undefined`/`null` field or a missing result. */
module Wrappers {

  datatype Option<+T> = None | Some(value: T)
}
