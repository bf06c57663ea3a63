/**
 * Keyspace.java, as far as the mutation builder and the counter use it: a
 * name and a session to which a rendered batch is forwarded.
 */
module Keyspaces {
  import opened Wrappers
  import Sessions

  class Keyspace {
    /**
     * What `getName()` returns. The constructor never assigns the field,
     * so it stays null.
     */
    const name: Option<string>
    /** The session opened on the keyspace; it receives batch text. */
    const session: Sessions.Session<string>

    /** Connects to `hosts` and opens a session on keyspace `keyspaceName`. */
    constructor (hosts: string, keyspaceName: string)
      ensures name == None
      ensures fresh(session) && session.calls == [Sessions.ConnectCall(hosts, keyspaceName)]
    {
      name := None;
      var s := new Sessions.Session<string>();
      s.Connect(hosts, keyspaceName);
      session := s;
    }

    /** `execute(mutator)` after the mutator's batch has been rendered: a blocking execute of the text. */
    method Execute(statement: string)
      modifies session
      ensures session.calls == old(session.calls) + [Sessions.ExecuteCall(statement)]
    {
      session.Execute(statement);
    }
  }
}
