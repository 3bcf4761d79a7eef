/** Failure-carrying values shared by the whole model: `Option` stands for a
    C# reference that may be null, `Result` for a call that either returns a
    value or throws, `Outcome` for a call that returns nothing or throws. */
module Common {

  datatype Option<+T> = None | Some(value: T)

  datatype Result<+T, +E> = Success(value: T) | Failure(error: E)

  datatype Outcome<+E> = Pass | Fail(error: E)
}
