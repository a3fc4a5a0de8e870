/** The optional value a Node caches (Rust's `Option`), and the value-or-error a fallible source yields (Rust's `Result`). */
module Wrappers {

  datatype Option<T> = None | Some(value: T)

  datatype Result<T, E> = Ok(value: T) | Err(error: E)

}
