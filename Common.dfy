/** Failure-carrying values shared by the model: `null` becomes `None`, and a
    thrown .NET exception becomes `Err` carrying the exception kind. */
module Common {

  datatype Option<+T> = None | Some(value: T)

  /** The .NET exceptions the modelled code can throw. */
  datatype Exception =
    | ArgumentNullException(paramName: string)
    | ArgumentException
    | NullReferenceException

  datatype Result<+T> = Ok(value: T) | Err(error: Exception)

  /** The outcome of a `void` method: it returned, or it threw. */
  datatype Outcome = Pass | Fail(error: Exception)
}
