/** Optional values, used for decoding integer codes that may name no enumerator. */
module Wrappers {

  /** Either no value or exactly one value. */
  datatype Option<+T> = None | Some(value: T)
}
