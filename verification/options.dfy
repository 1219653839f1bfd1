/** Failure-carrying wrappers shared by the model: `Option` stands for Rust's
    `Option<T>` and `Result` for `Result<T, E>`. */
module Options {

  datatype Option<+T> = None | Some(value: T)

  datatype Result<+T, +E> = Ok(value: T) | Err(error: E)
}
