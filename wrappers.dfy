/** The usual optional value, for the places where the player may have nothing to report. */
module Wrappers {

  datatype Option<+T> = None | Some(value: T)
}
