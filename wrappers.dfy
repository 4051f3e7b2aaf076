/** Optional values: a form field that is absent (`undefined`) or holds a string. */
module Wrappers {

  datatype Option<+T> = None | Some(value: T)
}
