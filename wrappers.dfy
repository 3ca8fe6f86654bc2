/** The optional value used wherever the C# source uses a nullable reference. */
module Wrappers {

  datatype Option<+T> = None | Some(value: T)
}
