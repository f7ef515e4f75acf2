/** Optional values and the outcome of a call that may raise a Python exception. */
module Common {

  datatype Option<+T> = None | Some(value: T)

  /** `Raised(e)` stands for an exception whose `str(e)` is `e`. */
  datatype Result<+T> = Ok(value: T) | Raised(error: string)
}
