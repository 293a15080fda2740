/** Option values for the error paths of the pipeline. */
module Wrappers {

  datatype Option<+T> = None | Some(value: T)
}
