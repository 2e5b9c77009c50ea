/** Optional values, used for decode results and for errors a call may report. */
module Wrappers {

  datatype Option<+T> = None | Some(value: T)
}
