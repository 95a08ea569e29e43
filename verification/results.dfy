// Option and Result values for the partial operations of the emulator:
// `None`/`Err` stand where the Rust code returns an error or panics.

module Results {
  datatype Option<T> = None | Some(value: T)

  datatype Result<T, E> = Ok(value: T) | Err(error: E)
}
