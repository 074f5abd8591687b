/** Small failure-carrying datatypes shared by the kernel and boot modules. */
module Wrappers {

  /** Rust's `Option<T>`. */
  datatype Option<+T> = None | Some(value: T)

  /** How a kernel operation ends: it returns `value`, or it panics with `message`
      (a panic never unwinds: the core stops, so nothing runs after it). */
  datatype Outcome<+T> = Returned(value: T) | Panicked(message: string)
}
