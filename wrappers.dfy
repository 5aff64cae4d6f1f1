/** Optional values. A JavaScript `null` or `undefined` is `None`. */
module Wrappers {

  datatype Option<+T> = None | Some(value: T)
}
