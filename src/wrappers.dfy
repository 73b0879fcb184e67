/** Option, used where the source yields no meaningful value (an empty
    `Math.min(...)`, a NaN transform). */
module Wrappers {
  datatype Option<+T> = None | Some(value: T)
}
