/** Optional values, used for absent JSON fields, failed parses and nullable references. */
module Wrappers {

  datatype Option<+T> = None | Some(value: T)
}
