// A value that may be absent (a Java null, an unreadable file).

module Wrappers {

  datatype Option<+T> = None | Some(value: T)
}
