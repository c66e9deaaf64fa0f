/** The optional value that stands for a C# reference which may be null. */
module Wrappers {

  datatype Option<+T> = None | Some(value: T)
}
