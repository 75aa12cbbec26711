/** The two result shapes the models share: a value that may be absent, and a value or a refusal. */
module Results {
  datatype Option<+T> = None | Some(value: T)

  datatype Result<+T, +E> = Ok(value: T) | Err(error: E)
}
