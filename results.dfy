/**
 * The outcome of a step of the page that can stop it: a value, or the
 * message the page shows when it stops.
 */
module Results {
  datatype Result<T> = Ok(value: T) | Err(message: string)
}
