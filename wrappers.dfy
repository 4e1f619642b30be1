/** The Option type used for Python's exceptions: None stands for the raised error. */
module Wrappers {

  datatype Option<+T> = None | Some(value: T)
}
