/** Optional values, used for "the next line, if there is one" and for
    "the chapter currently open, if any". */
module Wrappers {

  datatype Option<+T> = None | Some(value: T)
}
