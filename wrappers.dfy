/** Optional values, for the zone classifier's "no zone matched" outcome. */
module Wrappers {

  datatype Option<+T> = None | Some(value: T)
}
