/** Nullable references of the game scripts, as a value: `None` stands for C#'s `null`. */
module Wrappers {
  datatype Option<+T> = None | Some(value: T)
}
