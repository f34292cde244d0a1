/** The optional value used wherever the Python code stores `None` or leaves a key out. */
module Wrappers {
  datatype Option<+T> = None | Some(value: T)
}
