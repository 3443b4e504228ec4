/**
 * The boundary of the SQL engine the wrapper drives. `Executor` and its
 * operations are foreign to the wrapper; the model keeps only what the
 * wrapper can observe: the session and server stub an executor is bound to
 * when it is built, and the sequence of engine calls made on it since.
 */
module Executors {
  import opened Wrappers
  import opened Json
  import opened Sessions

  /** The six POST endpoints, each of which makes one engine call. */
  datatype Endpoint = StmtPrepare | StmtExecute | QueryExecute | ExecuteExternal | Parse | DoExecute

  /** One engine call; `arg` is the request value passed to it (`do_execute` takes none). */
  datatype EngineCall = EngineCall(endpoint: Endpoint, arg: Option<Json>)

  /** `SqlServerStub(connection_id=...)`: the only attribute the wrapper ever gives it. */
  datatype SqlServerStub = SqlServerStub(connectionId: Json)

  class Executor {
    /** The session the executor was built with; never rebound. */
    const session: SessionController
    const sqlServer: SqlServerStub
    /** The engine calls made on this executor, oldest first: a stand-in for its engine state. */
    var history: seq<EngineCall>

    /** `Executor(session, sqlserver)`: a new engine context with no calls made yet. */
    constructor (session: SessionController, sqlServer: SqlServerStub)
      ensures this.session == session && this.sqlServer == sqlServer
      ensures history == []
    {
      this.session := session;
      this.sqlServer := sqlServer;
      history := [];
    }

    /** Run one engine operation; it changes only this executor's own state. */
    method Invoke(call: EngineCall)
      modifies this
      ensures history == old(history) + [call]
    {
      history := history + [call];
    }
  }
}
