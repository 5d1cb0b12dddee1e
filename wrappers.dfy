/** The conventional optional value, used for values a lookup or a parse may not produce. */
module Wrappers {

  datatype Option<+T> = None | Some(value: T)
}
