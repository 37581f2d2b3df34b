/** The usual Some/None datatype, used for firmware answers and keymap lookups. */
module Wrappers {
  datatype Option<+T> = None | Some(value: T)
}
