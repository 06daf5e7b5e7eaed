/** Optional values: an absent DOM attribute, an undefined tab URL, a URL that does not parse. */
module Wrappers {

  datatype Option<+T> = None | Some(value: T)
}
