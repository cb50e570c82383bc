/** Shared types: the source's `None`-able values, and what may become of a call to the outside. */
module Wrappers {

  datatype Option<+T> = None | Some(value: T)

  // How a call to the outside ends; one that lands has its effect, and then raises all the same.
  datatype Fault = Works | Fails | Lands
}
