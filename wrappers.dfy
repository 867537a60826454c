/** The optional value used wherever the source returns `Option<T>` or `T | None`. */
module Wrappers {

  datatype Option<+T> = None | Some(value: T)

}
