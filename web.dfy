/** The answers of the HTTP handlers (buffalo): a rendered JSON body with a
    status, an error status with its cause (`c.Error`), or a panic raised while
    handling the request. */
module Web {

  datatype Response = RenderedTrue(status: nat) | Failure(status: nat, cause: string) | Panicked(reason: string)

  const StatusOK: nat := 200
  const StatusBadRequest: nat := 400
  const StatusUnauthorized: nat := 401
  const StatusNotFound: nat := 404
  const StatusInternalServerError: nat := 500

  /** The runtime's message for a send on a closed channel. */
  const SendOnClosedChannel := "send on closed channel"

  /** The runtime's message for an index past the end of a slice. */
  const IndexOutOfRange := "index out of range"
}
