/** The usual optional-value datatype, standing for a .NET reference that may be null. */
module Wrappers {

  datatype Option<+T> = None | Some(value: T)
}
