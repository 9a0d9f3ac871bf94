/** An optional value: a nullable value or an argument that may be absent. */
module Wrappers {

  datatype Option<+T> = None | Some(value: T)
}
