/** The optional-value type used for the save file and for the collision timer. */
module Wrappers {

  datatype Option<+T> = None | Some(value: T)
}
