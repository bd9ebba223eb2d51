/**
 The shape of an HTTP handler's outcome: a JSON body with status 200, or an
 error status with the message the handler sends.
 */
module Http {
  import DataHelpers

  datatype Response<+T> = Ok(body: T) | Fail(status: nat, error: string)

  /** The store a handler leaves behind, and its response. */
  datatype Handled<+T> = Handled(store: DataHelpers.Store, response: Response<T>)
}
