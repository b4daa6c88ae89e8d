/** The presence of an optional value, as the option map and the loaded settings use it. */
module Wrappers {

  datatype Option<+T> = None | Some(value: T)
}
