/** `Option`, `Result` and the panic outcome shared by the modules. */
module Wrappers {

  /** Rust's `Option<T>`. */
  datatype Option<+T> = None | Some(value: T)

  /** Rust's `Result<T, E>`, with the error kept as its message. */
  datatype Result<+T> = Ok(value: T) | Err(error: string)

  /**
   * The result of a step that may end the process: either it completed with
   * `value`, or it panicked with `message` (Rust's `unimplemented!`, `expect`).
   * A panic is not recoverable; nothing after it is observable.
   */
  datatype Outcome<+T> = Done(value: T) | Panicked(message: string)
}
