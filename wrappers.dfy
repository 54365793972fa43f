/** The optional value used for a parse that may fail and for the
    not-yet-set `lastUpdate` timestamp. */
module Wrappers {

  datatype Option<+T> = None | Some(value: T)
}
