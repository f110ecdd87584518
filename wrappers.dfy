/** Option, for values the bot may or may not have (Python's `None`). */
module Wrappers {
  datatype Option<+T> = None | Some(value: T)
}
