/**
 * The Cassandra driver's `Session`, which this library only calls. It is an
 * abstract sink: it remembers, in order, the calls it received.
 */
module Sessions {

  /** One call received by a session, carrying the request it was given. */
  datatype SessionCall<T> =
    | ConnectCall(contactPoints: string, keyspace: string)
    | ExecuteCall(request: T)
    | ExecuteAsyncCall(request: T)
    | ShutdownCall

  class Session<T> {
    /** Every call made on this session so far, oldest first. */
    ghost var calls: seq<SessionCall<T>>

    constructor ()
      ensures calls == []
    {
      calls := [];
    }

    /** Opens the connection: `Cluster.builder().addContactPoints(...).build().connect(keyspace)`. */
    method Connect(contactPoints: string, keyspace: string)
      modifies this
      ensures calls == old(calls) + [ConnectCall(contactPoints, keyspace)]
    {
      calls := calls + [ConnectCall(contactPoints, keyspace)];
    }

    /** Blocks until the request is acknowledged. */
    method Execute(request: T)
      modifies this
      ensures calls == old(calls) + [ExecuteCall(request)]
    {
      calls := calls + [ExecuteCall(request)];
    }

    /** Submits the request and returns at once. */
    method ExecuteAsync(request: T)
      modifies this
      ensures calls == old(calls) + [ExecuteAsyncCall(request)]
    {
      calls := calls + [ExecuteAsyncCall(request)];
    }

    method Shutdown()
      modifies this
      ensures calls == old(calls) + [ShutdownCall]
    {
      calls := calls + [ShutdownCall];
    }
  }
}
