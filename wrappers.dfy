/** The optional value used for every callback field that Go leaves nil when absent. */
module Wrappers {

  datatype Option<+T> = None | Some(value: T)
}
