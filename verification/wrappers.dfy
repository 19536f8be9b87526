/** The optional value used where `solve_linear_programming` returns `None`. */
module Wrappers {

  datatype Option<+T> = None | Some(value: T)
}
