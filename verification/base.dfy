/**
 Failure-carrying wrappers shared by the configuration and runner models:
 an optional value, and a result that is either a value or the exception
 the PHP code would have thrown.
 */
module Base {

  datatype Option<+T> = None | Some(value: T)

  datatype Result<+T, +E> = Success(value: T) | Failure(error: E)
}
