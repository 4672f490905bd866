/** An optional value, as used for the countdown overlay (hidden or showing
    a label) and for the strip of the result screen (absent or shown). */
module Wrappers {
  datatype Option<T> = None | Some(value: T)
}
