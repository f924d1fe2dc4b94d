/** Optional values and fallible results shared by every module. */
module Wrappers {

  /** `Option<T>`: `None` is an absent value (an empty queue, a transform that yields nothing). */
  datatype Option<+T> = None | Some(value: T)

  /** The outcome of a parser or of a transform that may abort the run (a Rust `panic!`). */
  datatype Result<+T> = Ok(value: T) | Err
}
