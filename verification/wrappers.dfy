/** Optional values: the model's rendering of JavaScript `null` / `undefined`. */
module Wrappers {

  datatype Option<+T> = None | Some(value: T)
}
