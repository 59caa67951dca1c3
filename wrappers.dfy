/** Rust's `Option`, for results of the queue and of its collaborators that may be absent. */
module Wrappers {

  datatype Option<+T> = None | Some(value: T)
}
