/** The error surface of the connection layer and the outcomes of the calls it
    makes into collaborators it does not own (opening a transport, a remote call).
    Those collaborators are not modelled: what they do is passed in as a value. */
module Errors {

  /** The message ErrorThriftMessage carries when the Thrift exception has none. */
  const TransportFallback: string := "Transport error, reconnect"

  /** An exception that is neither a Thrift exception nor one of the library's
      own; the wrapped call re-raises it untouched. */
  datatype Exc = Exc(kind: string, message: string)

  datatype Error =
    | ClientNotFound(message: string)   // ErrorCassandraClientNotFound
    | NoServersConfigured               // ErrorCassandraNoServersConfigured
    | ThriftMessage(message: string)    // ErrorThriftMessage
    | AddressArity(server: string)      // TypeError: split(":") did not give host and port
    | PortNotInteger(server: string)    // ValueError: int(port) refused the port text
    | Reraised(exc: Exc)                // any other exception, propagated unchanged

  datatype Option<T> = None | Some(value: T)

  datatype Result<T> = Ok(value: T) | Err(error: Error)

  /** What `transport.open()` does: returns, raises a Thrift exception carrying
      a message ("" when it has none), or raises anything else. */
  datatype OpenOutcome = OpenOk | OpenTExc(message: string) | OpenOther

  /** What the remote operation does once it is reached. */
  datatype CallOutcome<V> = Returns(value: V) | RaisesTExc(message: string) | RaisesOther(exc: Exc)

  /** What the caller of a wrapped remote operation sees: the remote value,
      Python's None (no connection, call skipped), or an exception. */
  datatype CallResult<V> = Value(value: V) | NoneResult | Raised(error: Error)

  /** The message of the ErrorThriftMessage raised for a Thrift exception:
      the exception's own message when it has one, the fallback otherwise. */
  function MessageOrFallback(message: string): (m: string)
    ensures m != ""
    ensures message != "" ==> m == message
    ensures message == "" ==> m == TransportFallback
  {
    if message != "" then message else TransportFallback
  }
}
