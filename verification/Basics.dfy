/** The option type used by every other module. */
module Basics {
  datatype Option<+T> = None | Some(value: T)
}
