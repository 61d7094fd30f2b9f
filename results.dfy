/** Success and failure values shared by the form schemas and the calendar. */
module Results {

  /** A value that may be absent, such as a query result that has not arrived. */
  datatype Option<+T> = None | Some(value: T)

  /** The outcome of a schema parse: the transformed value, or the first issue found. */
  datatype Result<+T, +E> = Ok(value: T) | Err(error: E)
}
