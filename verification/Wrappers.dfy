/** Values that may be absent, used by every module. */
module Wrappers {

  datatype Option<+T> = None | Some(value: T)
}
