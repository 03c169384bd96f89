/** Small value wrappers shared by the other modules. */
module Common {

  /** An optional value; `None` also stands for a JavaScript property that was never assigned. */
  datatype Option<T> = None | Some(value: T)

  /** The outcome of an operation that can fail with an error value. */
  datatype Result<T, E> = Success(value: T) | Failure(error: E)

  function Min(a: int, b: int): int
  {
    if a <= b then a else b
  }
}
