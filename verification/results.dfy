/** Failure-carrying wrappers shared by the model: `Option` for Rust's
    `Option<T>` and `Result` for `Result<T, ()>`, whose error carries nothing. */
module Results {

  datatype Option<+T> = None | Some(value: T)

  /** `Err` mirrors `Err(())`: the record parser reports no reason. */
  datatype Result<+T> = Ok(value: T) | Err
}
