/** The usual optional value, used for results that may be absent
    (a candidate position that was never accepted, an image that failed to load). */
module Wrappers {
  datatype Option<+T> = None | Some(value: T)
}
