/** Optional values: a header, an environment variable or a JavaScript `let`
    that may be undefined. */
module Wrappers {

  datatype Option<+T> = None | Some(value: T)
}
