/** Optional values: a JavaScript argument or field that may be absent (`undefined`). */
module Wrappers {

  datatype Option<+T> = None | Some(value: T)
}
