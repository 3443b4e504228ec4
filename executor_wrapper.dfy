/**
 * `ExecutorService`: the identifier-keyed caches of executors and sessions
 * behind the wrapper's HTTP endpoints, and the get-or-create sequence that
 * every POST endpoint runs before it calls into the engine.
 */
module ExecutorWrapper {
  import opened Wrappers
  import opened Json
  import opened Sessions
  import opened Executors

  /** A response body: fixed text, or the serialised state of an executor (`executor.to_json()`). */
  datatype Body = Text(text: string) | ExecutorState(calls: seq<EngineCall>)

  datatype Response = Response(body: Body, status: int)

  const StatusOk: int := 200

  /** The response of both delete endpoints. */
  const EmptyOk: Response := Response(Text(""), StatusOk)

  /** The liveness probe at `/`. */
  function Index(): (r: Response)
    ensures r.status == StatusOk && r.body.Text?
  {
    Response(Text("An Executor Wrapper"), StatusOk)
  }

  /** `ctx`, the ambient request context that `_get_executor` loads before anything else. */
  class AmbientContext {
    var data: Json

    constructor ()
    {
    }

    /** `ctx.load(blob)`: install the blob as the current request's context. */
    method Load(blob: Json)
      modifies this
      ensures data == blob
    {
      data := blob;
    }
  }

  /** `params[name]` used as a dictionary key: KeyError when absent, TypeError when unhashable. */
  function KeyAt(params: Json, name: string): Result<Key, Error> {
    match Subscript(params, name)
    case Failure(e) => Failure(e)
    case Success(v) => HashKey(v)
  }

  /**
   * Two requests whose `name` entries are usable keys select the same
   * cache entry exactly when Python calls the two entries equal.
   */
  lemma SameKeyAtIffPyEqual(p: Json, q: Json, name: string)
    requires KeyAt(p, name).Success? && KeyAt(q, name).Success?
    ensures KeyAt(p, name) == KeyAt(q, name) <==> PyEqual(Subscript(p, name).value, Subscript(q, name).value)
  {
    SameKeyIffPyEqual(Subscript(p, name).value, Subscript(q, name).value);
  }

  /** How `_get_executor` proceeds on a request, given the keys of the two caches. */
  datatype Route =
    | Rejected(error: Error)                 // `params["context"]` raised: nothing happens
    | Failed(context: Json, error: Error)    // raised after `ctx.load`, before any cache is touched
    | Hit(context: Json, id: Key)            // the executor is cached under `id`
    | Miss(context: Json, id: Key, sessionId: Key, newSession: bool, snapshot: Json)

  /** The route of a request, following the order in which `_get_executor` reads the request. */
  function RouteOf(params: Json, executors: set<Key>, sessions: set<Key>): (p: Route)
    ensures p.Rejected? <==> Subscript(params, "context").Failure?
    ensures !p.Rejected? ==> Subscript(params, "context") == Success(p.context)
    ensures p.Hit? <==> !p.Rejected? && KeyAt(params, "id").Success? && KeyAt(params, "id").value in executors
    ensures p.Hit? ==> KeyAt(params, "id") == Success(p.id)
    ensures p.Miss? ==> KeyAt(params, "id") == Success(p.id) && p.id !in executors
    ensures p.Miss? ==> KeyAt(params, "session_id") == Success(p.sessionId)
    ensures p.Miss? ==> p.newSession == (p.sessionId !in sessions)
    ensures p.Miss? ==> Subscript(params, "session") == Success(p.snapshot)
  {
    match Subscript(params, "context")
    case Failure(e) => Rejected(e)
    case Success(context) =>
      match KeyAt(params, "id")
      case Failure(e) => Failed(context, e)
      case Success(id) =>
        if id in executors then Hit(context, id)
        else
          match KeyAt(params, "session_id")
          case Failure(e) => Failed(context, e)
          case Success(sid) =>
            match Subscript(params, "session")
            case Failure(e) => Failed(context, e)
            case Success(snapshot) => Miss(context, id, sid, sid !in sessions, snapshot)
  }

  /**
   * On a hit nothing but `context` and `id` is read: neither `session_id`,
   * `session`, `connection_id` nor the session cache affects the route.
   */
  lemma HitReadsOnlyContextAndId(p: Json, q: Json, executors: set<Key>, sessions: set<Key>, otherSessions: set<Key>)
    requires RouteOf(p, executors, sessions).Hit?
    requires Subscript(q, "context") == Subscript(p, "context") && KeyAt(q, "id") == KeyAt(p, "id")
    ensures RouteOf(q, executors, otherSessions) == RouteOf(p, executors, sessions)
  {
  }

  /**
   * What a miss builds once the session is resynchronised: the stub's
   * connection id, read only when the five assignments raised nothing, or
   * the exception that stopped the sequence first.
   */
  function Built(params: Json, resyncError: Option<Error>): Result<Json, Error> {
    if resyncError.Some? then Failure(resyncError.value) else Subscript(params, "connection_id")
  }

  /** A request that carries every field `_get_executor` may read, with hashable ids and a complete session. */
  predicate WellFormedRequest(params: Json) {
    && Subscript(params, "context").Success?
    && KeyAt(params, "id").Success?
    && KeyAt(params, "session_id").Success?
    && Subscript(params, "session").Success?
    && Complete(Subscript(params, "session").value)
    && Subscript(params, "connection_id").Success?
  }

  /**
   * A well-formed request always yields an executor, whatever state the
   * caches and the resynchronised session are in; on a miss the session
   * ends up holding exactly the request's snapshot.
   */
  lemma WellFormedRequestResolves(params: Json, executors: set<Key>, sessions: set<Key>)
    requires WellFormedRequest(params)
    ensures RouteOf(params, executors, sessions).Hit? || RouteOf(params, executors, sessions).Miss?
    ensures RouteOf(params, executors, sessions).Miss? ==>
              forall base :: Resync(base, RouteOf(params, executors, sessions).snapshot)
                               == (SnapshotFields(Subscript(params, "session").value), None)
    ensures Built(params, None) == Success(Subscript(params, "connection_id").value)
  {
    forall base ensures Resync(base, Subscript(params, "session").value) == (SnapshotFields(Subscript(params, "session").value), None) {
      ResyncIsOverwrite(base, Subscript(params, "session").value);
    }
  }

  /** The key `del_executor` and `del_session` remove: none for a missing or null `id`. */
  function DeletionKey(body: Json): (r: Result<Option<Key>, Error>)
    ensures r.Failure? <==> !body.JObject? || (Get(body, "id").value != JNull && HashKey(Get(body, "id").value).Failure?)
    ensures r == Success(None) <==> Get(body, "id") == Success(JNull)
    ensures r.Success? && r.value.Some? ==> HashKey(Get(body, "id").value) == Success(r.value.value)
    ensures r.Success? && r.value.Some? ==> r.value.value != NullKey
  {
    match Get(body, "id")
    case Failure(e) => Failure(e)
    case Success(v) =>
      if v == JNull then Success(None)
      else
        match HashKey(v)
        case Failure(e) => Failure(e)
        case Success(k) => Success(Some(k))
  }

  /** The engine call a POST endpoint makes: `sql` or `param_values` via `params.get`, nothing for `do_execute`. */
  function CallFor(endpoint: Endpoint, params: Json): EngineCall
    requires params.JObject?
  {
    match endpoint
    case DoExecute => EngineCall(endpoint, None)
    case StmtExecute => EngineCall(endpoint, Some(Get(params, "param_values").value))
    case _ => EngineCall(endpoint, Some(Get(params, "sql").value))
  }

  /**
   * An endpoint's engine call reads nothing of the request but `sql` (or
   * `param_values` for `stmt_execute`): the identifiers, the context and
   * the session snapshot never reach the engine through it, and a missing
   * argument is passed as null rather than rejected.
   */
  lemma CallForReadsOnlyItsArgument(endpoint: Endpoint, p: Json, q: Json)
    requires p.JObject? && q.JObject?
    requires endpoint == StmtExecute ==> Get(p, "param_values") == Get(q, "param_values")
    requires endpoint !in {StmtExecute, DoExecute} ==> Get(p, "sql") == Get(q, "sql")
    ensures CallFor(endpoint, p) == CallFor(endpoint, q)
    ensures endpoint != DoExecute && "sql" !in p.fields && "param_values" !in p.fields ==> CallFor(endpoint, p).arg == Some(JNull)
  {
  }

  class ExecutorService {
    var executorsCache: map<Key, Executor>
    var sessionsCache: map<Key, SessionController>
    const ctx: AmbientContext

    /** No object is cached under two keys: every entry was built for its own key. */
    ghost predicate Valid()
      reads this
    {
      && (forall i, j :: i in executorsCache && j in executorsCache && i != j ==> executorsCache[i] != executorsCache[j])
      && (forall i, j :: i in sessionsCache && j in sessionsCache && i != j ==> sessionsCache[i] != sessionsCache[j])
    }

    /** A service with both caches empty. */
    constructor (ctx: AmbientContext)
      ensures Valid()
      ensures executorsCache == map[] && sessionsCache == map[] && this.ctx == ctx
    {
      executorsCache := map[];
      sessionsCache := map[];
      this.ctx := ctx;
    }

    /** Neither cache changed, and no cached session's fields did. */
    twostate predicate Untouched()
      reads this`executorsCache, this`sessionsCache, sessionsCache.Values
    {
      && executorsCache == old(executorsCache)
      && sessionsCache == old(sessionsCache)
      && forall s :: s in old(sessionsCache.Values) ==> s.Fields() == old(s.Fields())
    }

    /**
     * What `_get_executor(params)` did, from the old state to the current
     * one, when it returned `r`; `base` is the session's fields just before
     * the resynchronisation on a miss.
     */
    twostate predicate Resolves(params: Json, new r: Result<Executor, Error>, base: SessionFields)
      reads this`executorsCache, this`sessionsCache, ctx`data, sessionsCache.Values
    {
      match RouteOf(params, old(executorsCache.Keys), old(sessionsCache.Keys))
      case Rejected(e) => r == Failure(e) && ctx.data == old(ctx.data) && Untouched()
      case Failed(c, e) => r == Failure(e) && ctx.data == c && Untouched()
      case Hit(c, id) => r == Success(old(executorsCache[id])) && ctx.data == c && Untouched()
      case Miss(c, id, sid, isNew, snapshot) => ctx.data == c && MissResolves(params, id, sid, snapshot, r, base)
    }

    /**
     * The miss path of `_get_executor` from the session lookup on: the
     * session under `sid` is reused or created, resynchronised from
     * `snapshot`, and a new executor bound to it is cached under `id`.
     */
    twostate predicate MissResolves(params: Json, id: Key, sid: Key, snapshot: Json,
                                    new r: Result<Executor, Error>, base: SessionFields)
      reads this`executorsCache, this`sessionsCache, sessionsCache.Values
    {
      && SessionSynced(sid, snapshot, base)
      && ExecutorBuilt(params, id, sessionsCache[sid], Resync(base, snapshot).1, r)
    }

    /**
     * Lines 70-86: the session under `sid` is the cached one (whose fields
     * were `base`) or a fresh one, it now holds `Resync(base, snapshot)`, and
     * every other cached session is as it was.
     */
    twostate predicate SessionSynced(sid: Key, snapshot: Json, base: SessionFields)
      reads this`sessionsCache, sessionsCache.Values
    {
      && sid in sessionsCache
      && var s := sessionsCache[sid];
      && (if sid !in old(sessionsCache) then fresh(s) && sessionsCache == old(sessionsCache)[sid := s]
          else s == old(sessionsCache[sid]) && sessionsCache == old(sessionsCache) && base == old(s.Fields()))
      && (forall k :: k in old(sessionsCache) && k != sid ==>
            k in sessionsCache && sessionsCache[k] == old(sessionsCache[k]) && sessionsCache[k].Fields() == old(sessionsCache[k].Fields()))
      && s.Fields() == Resync(base, snapshot).0
    }

    /**
     * Lines 87-101: unless the resynchronisation raised, `connection_id` is
     * read and a fresh executor bound to `session` and to it is cached under
     * `id`; on any exception the executor cache is as it was.
     */
    twostate predicate ExecutorBuilt(params: Json, id: Key, new session: SessionController, resyncError: Option<Error>,
                                     new r: Result<Executor, Error>)
      reads this`executorsCache
    {
      match Built(params, resyncError)
      case Failure(e) => r == Failure(e) && executorsCache == old(executorsCache)
      case Success(connection) =>
        && r.Success? && fresh(r.value)
        && r.value.session == session && r.value.sqlServer == SqlServerStub(connection)
        && executorsCache == old(executorsCache)[id := r.value]
    }

    /**
     * Lines 82-86 of `_get_executor`: copy the five fields from the snapshot
     * in order; a lookup that raises leaves the earlier assignments in place.
     */
    static method ResyncSession(session: SessionController, snapshot: Json) returns (err: Option<Error>)
      modifies session
      ensures (session.Fields(), err) == Resync(old(session.Fields()), snapshot)
    {
      ghost var base := session.Fields();
      var field := Subscript(snapshot, FieldName(Database));
      if field.Failure? {
        return Some(field.error);
      }
      session.database := field.value;
      field := Subscript(snapshot, FieldName(Username));
      if field.Failure? {
        return Some(field.error);
      }
      session.username := field.value;
      field := Subscript(snapshot, FieldName(Auth));
      if field.Failure? {
        return Some(field.error);
      }
      session.auth := field.value;
      field := Subscript(snapshot, FieldName(PreparedStmts));
      if field.Failure? {
        return Some(field.error);
      }
      session.preparedStmts := field.value;
      field := Subscript(snapshot, FieldName(PacketSequenceNumber));
      if field.Failure? {
        return Some(field.error);
      }
      session.packetSequenceNumber := field.value;
      err := None;
    }

    /** `_get_executor(params)`: the cached executor for `params["id"]`, or a new one bound to the resynchronised session. */
    method GetExecutor(params: Json) returns (r: Result<Executor, Error>, ghost base: SessionFields)
      requires Valid()
      modifies this, ctx, sessionsCache.Values
      ensures Valid()
      ensures Resolves(params, r, base)
      ensures RouteOf(params, old(executorsCache.Keys), old(sessionsCache.Keys)).Miss? && r.Success? ==> r.value.history == []
    {
      base := SessionFields(JNull, JNull, JNull, JNull, JNull);
      ghost var route := RouteOf(params, executorsCache.Keys, sessionsCache.Keys);
      var context := Subscript(params, "context");
      if context.Failure? {
        assert route == Rejected(context.error);
        return Failure(context.error), base;
      }
      ctx.Load(context.value);
      var id := KeyAt(params, "id");
      if id.Failure? {
        assert route == Failed(context.value, id.error);
        return Failure(id.error), base;
      }
      if id.value in executorsCache {
        assert route == Hit(context.value, id.value);
        return Success(executorsCache[id.value]), base;
      }
      var sid := KeyAt(params, "session_id");
      if sid.Failure? {
        assert route == Failed(context.value, sid.error);
        return Failure(sid.error), base;
      }
      // On both branches of lines 71-81 the first effectful step reads params["session"]
      // (the log call at lines 75-79, or the assignment at line 82).
      var snapshot := Subscript(params, "session");
      if snapshot.Failure? {
        assert route == Failed(context.value, snapshot.error);
        return Failure(snapshot.error), base;
      }
      assert route == Miss(context.value, id.value, sid.value, sid.value !in sessionsCache, snapshot.value);
      r, base := ResolveMiss(params, id.value, sid.value, snapshot.value);
    }

    /** Lines 70-81 of `_get_executor`: the session cached under `sid`, or a new one cached there. */
    method SessionFor(sid: Key) returns (session: SessionController)
      requires Valid()
      modifies this`sessionsCache
      ensures Valid()
      ensures sessionsCache == old(sessionsCache)[sid := session]
      ensures sid in old(sessionsCache) ==> session == old(sessionsCache[sid])
      ensures sid !in old(sessionsCache) ==> fresh(session)
    {
      if sid in sessionsCache {
        session := sessionsCache[sid];
      } else {
        session := new SessionController();
        sessionsCache := sessionsCache[sid := session];
      }
    }

    /** Lines 70-86 of `_get_executor`: find or create the session under `sid`, then resynchronise it. */
    method SyncSession(sid: Key, snapshot: Json) returns (session: SessionController, err: Option<Error>, ghost base: SessionFields)
      requires Valid()
      modifies this`sessionsCache, sessionsCache.Values
      ensures Valid()
      ensures SessionSynced(sid, snapshot, base)
      ensures sid in sessionsCache && session == sessionsCache[sid] && err == Resync(base, snapshot).1
    {
      session := SessionFor(sid);
      base := session.Fields();
      err := ResyncSession(session, snapshot);
    }

    /** Lines 99-100 of `_get_executor`: build an executor and cache it under `id`. */
    method CacheNewExecutor(id: Key, session: SessionController, sqlServer: SqlServerStub) returns (executor: Executor)
      requires Valid() && id !in executorsCache
      modifies this`executorsCache
      ensures Valid()
      ensures fresh(executor) && executor.session == session && executor.sqlServer == sqlServer
      ensures executor.history == []
      ensures executorsCache == old(executorsCache)[id := executor]
    {
      executor := new Executor(session, sqlServer);
      executorsCache := executorsCache[id := executor];
    }

    /** Lines 70-101 of `_get_executor`, once the snapshot is known to be present. */
    method ResolveMiss(params: Json, id: Key, sid: Key, snapshot: Json) returns (r: Result<Executor, Error>, ghost base: SessionFields)
      requires Valid() && id !in executorsCache
      modifies this, sessionsCache.Values
      ensures Valid()
      ensures MissResolves(params, id, sid, snapshot, r, base)
      ensures r.Success? ==> r.value.history == []
    {
      var session, resyncError;
      session, resyncError, base := SyncSession(sid, snapshot);
      var connection := Built(params, resyncError);
      if connection.Success? {
        var executor := CacheNewExecutor(id, session, SqlServerStub(connection.value));
        r := Success(executor);
      } else {
        r := Failure(connection.error);
      }
    }

    /**
     * The six POST endpoints (`stmt_prepare`, `stmt_execute`,
     * `query_execute`, `execute_external`, `parse`, `do_execute`): resolve
     * the executor, make the endpoint's engine call on it, and answer with
     * its serialised state. `resolved` and `base` are what
     * `_get_executor` returned and the session's fields before a resync.
     */
    method Dispatch(endpoint: Endpoint, params: Json) returns (r: Result<Response, Error>, ghost resolved: Result<Executor, Error>, ghost base: SessionFields)
      requires Valid()
      modifies this, ctx, sessionsCache.Values, executorsCache.Values
      ensures Valid()
      ensures Resolves(params, resolved, base)
      ensures resolved.Failure? ==> r == Failure(resolved.error)
      ensures resolved.Success? ==> params.JObject?
      ensures resolved.Success? ==>
                var e := resolved.value;
                && e.history == (if e in old(executorsCache.Values) then old(e.history) else []) + [CallFor(endpoint, params)]
                && r == Success(Response(ExecutorState(e.history), StatusOk))
      ensures forall x :: x in old(executorsCache.Values) && (resolved.Failure? || x != resolved.value) ==> x.history == old(x.history)
    {
      var got;
      got, base := GetExecutor(params);
      resolved := got;
      if got.Failure? {
        return Failure(got.error), resolved, base;
      }
      var e := got.value;
      // the engine call changes only `e`, which `Resolves` does not read
      ghost var resolves := Resolves(params, resolved, base);
      assert resolves;
      e.Invoke(CallFor(endpoint, params));
      assert resolves == Resolves(params, resolved, base);
      r := Success(Response(ExecutorState(e.history), StatusOk));
    }

    /** `del_executor`: forget the executor cached under the body's `id`, if there is one. */
    method DelExecutor(body: Json) returns (r: Result<Response, Error>)
      requires Valid()
      modifies this`executorsCache
      ensures Valid()
      ensures match DeletionKey(body)
        case Failure(e) => r == Failure(e) && executorsCache == old(executorsCache)
        case Success(None) => r == Success(EmptyOk) && executorsCache == old(executorsCache)
        case Success(Some(k)) => r == Success(EmptyOk) && executorsCache == old(executorsCache) - {k}
    {
      var key := DeletionKey(body);
      match key
      case Failure(e) => r := Failure(e);
      case Success(k) =>
        if k.Some? && k.value in executorsCache {
          executorsCache := executorsCache - {k.value};
        }
        r := Success(EmptyOk);
    }

    /** `del_session`: forget the session cached under the body's `id`; executors bound to it stay cached. */
    method DelSession(body: Json) returns (r: Result<Response, Error>)
      requires Valid()
      modifies this`sessionsCache
      ensures Valid()
      ensures match DeletionKey(body)
        case Failure(e) => r == Failure(e) && sessionsCache == old(sessionsCache)
        case Success(None) => r == Success(EmptyOk) && sessionsCache == old(sessionsCache)
        case Success(Some(k)) => r == Success(EmptyOk) && sessionsCache == old(sessionsCache) - {k}
    {
      var key := DeletionKey(body);
      match key
      case Failure(e) => r := Failure(e);
      case Success(k) =>
        if k.Some? && k.value in sessionsCache {
          sessionsCache := sessionsCache - {k.value};
        }
        r := Success(EmptyOk);
    }
  }

  // Client scenarios: what a sequence of requests does, derived from the
  // contracts above alone.

  /**
   * A request carrying every field `_get_executor` may read always yields
   * the executor cached under its `id`: the cached one, with nothing else
   * changed, or a fresh one bound to the session under `session_id`, which
   * then holds exactly the request's snapshot.
   */
  method Connect(svc: ExecutorService, p: Json) returns (e: Executor)
    requires svc.Valid() && WellFormedRequest(p)
    modifies svc, svc.ctx, svc.sessionsCache.Values
    ensures svc.Valid()
    ensures forall s :: s in svc.sessionsCache.Values ==> s in old(svc.sessionsCache.Values) || fresh(s)
    ensures var id := KeyAt(p, "id").value;
            && svc.executorsCache == old(svc.executorsCache)[id := e]
            && (id in old(svc.executorsCache) ==> e == old(svc.executorsCache[id]) && svc.sessionsCache == old(svc.sessionsCache))
    ensures var id, sid := KeyAt(p, "id").value, KeyAt(p, "session_id").value;
            id !in old(svc.executorsCache) ==>
              && fresh(e) && e.history == []
              && sid in svc.sessionsCache && e.session == svc.sessionsCache[sid]
              && (sid in old(svc.sessionsCache) ==> e.session == old(svc.sessionsCache[sid]))
              && svc.sessionsCache.Keys == old(svc.sessionsCache.Keys) + {sid}
              && e.session.Fields() == SnapshotFields(Subscript(p, "session").value)
  {
    WellFormedRequestResolves(p, svc.executorsCache.Keys, svc.sessionsCache.Keys);
    var r, _ := svc.GetExecutor(p);
    e := r.value;
  }

  /** Two requests naming the same `id`, with nothing deleted in between, get the same executor. */
  method RepeatedIdReturnsSameExecutor(svc: ExecutorService, p: Json, q: Json) returns (first: Executor, second: Executor)
    requires svc.Valid() && WellFormedRequest(p)
    requires Subscript(q, "context").Success? && KeyAt(q, "id") == KeyAt(p, "id")
    modifies svc, svc.ctx, svc.sessionsCache.Values
    ensures first == second
    ensures KeyAt(p, "id").value in svc.executorsCache && svc.executorsCache[KeyAt(p, "id").value] == second
  {
    first := Connect(svc, p);
    var r, _ := svc.GetExecutor(q);
    second := r.value;
  }

  /**
   * On a hit `session_id` is not checked: an executor created for session
   * `a` is handed to a request that names another session `b`, still bound
   * to `a`'s session.
   */
  method HitIgnoresSessionId(svc: ExecutorService, p: Json, q: Json) returns (created: Executor, reused: Executor)
    requires svc.Valid() && WellFormedRequest(p) && KeyAt(p, "id").value !in svc.executorsCache
    requires Subscript(q, "context").Success? && KeyAt(q, "id") == KeyAt(p, "id")
    requires KeyAt(q, "session_id").Success? && KeyAt(q, "session_id") != KeyAt(p, "session_id")
    modifies svc, svc.ctx, svc.sessionsCache.Values
    ensures reused == created
    ensures KeyAt(p, "session_id").value in svc.sessionsCache
    ensures reused.session == svc.sessionsCache[KeyAt(p, "session_id").value]
    ensures KeyAt(q, "session_id").value in svc.sessionsCache ==>
              reused.session != svc.sessionsCache[KeyAt(q, "session_id").value]
  {
    created := Connect(svc, p);
    var r, _ := svc.GetExecutor(q);
    reused := r.value;
  }

  /** After `del_executor`, the same request builds a new executor with no engine state from the old one. */
  method DeleteThenRecreate(svc: ExecutorService, p: Json, body: Json) returns (first: Executor, second: Executor)
    requires svc.Valid() && WellFormedRequest(p)
    requires DeletionKey(body) == Success(Some(KeyAt(p, "id").value))
    modifies svc, svc.ctx, svc.sessionsCache.Values
    ensures first != second && fresh(second) && second.history == []
    ensures KeyAt(p, "id").value in svc.executorsCache && svc.executorsCache[KeyAt(p, "id").value] == second
  {
    first := Connect(svc, p);
    var _ := svc.DelExecutor(body);
    second := Connect(svc, p);
  }

  /**
   * `del_session` does not cascade: the executor built for the session stays
   * cached, bound to the removed session object, which keeps the snapshot
   * it was last resynchronised from.
   */
  method DeleteSessionKeepsExecutor(svc: ExecutorService, p: Json, body: Json) returns (e: Executor)
    requires svc.Valid() && WellFormedRequest(p) && KeyAt(p, "id").value !in svc.executorsCache
    requires DeletionKey(body) == Success(Some(KeyAt(p, "session_id").value))
    modifies svc, svc.ctx, svc.sessionsCache.Values
    ensures KeyAt(p, "session_id").value !in svc.sessionsCache
    ensures KeyAt(p, "id").value in svc.executorsCache && svc.executorsCache[KeyAt(p, "id").value] == e
    ensures KeyAt(p, "session_id").value in old(svc.sessionsCache) ==>
              e.session == old(svc.sessionsCache[KeyAt(p, "session_id").value])
    ensures e.session !in svc.sessionsCache.Values
    ensures e.session.Fields() == SnapshotFields(Subscript(p, "session").value)
  {
    e := Connect(svc, p);
    var _ := svc.DelSession(body);
  }

  /** Two new executors created under one `session_id` share one session object. */
  method SessionSharedByExecutors(svc: ExecutorService, p: Json, q: Json) returns (e1: Executor, e2: Executor)
    requires svc.Valid() && WellFormedRequest(p) && WellFormedRequest(q)
    requires KeyAt(p, "id").value !in svc.executorsCache && KeyAt(q, "id").value !in svc.executorsCache
    requires KeyAt(p, "id") != KeyAt(q, "id") && KeyAt(p, "session_id") == KeyAt(q, "session_id")
    modifies svc, svc.ctx, svc.sessionsCache.Values
    ensures e1 != e2 && e1.session == e2.session
    ensures KeyAt(p, "session_id").value in svc.sessionsCache
    ensures e2.session == svc.sessionsCache[KeyAt(p, "session_id").value]
    ensures e2.session.Fields() == SnapshotFields(Subscript(q, "session").value)
  {
    e1 := Connect(svc, p);
    e2 := Connect(svc, q);
  }

  /** An executor cached under a null `id` survives every `del_executor` call. */
  method NullIdIsNeverDeleted(svc: ExecutorService, p: Json, body: Json) returns (e: Executor)
    requires svc.Valid() && WellFormedRequest(p) && Subscript(p, "id") == Success(JNull)
    modifies svc, svc.ctx, svc.sessionsCache.Values
    ensures NullKey in svc.executorsCache && svc.executorsCache[NullKey] == e
  {
    e := Connect(svc, p);
    var _ := svc.DelExecutor(body);
  }

  /** Deleting twice answers alike and leaves the caches as deleting once does. */
  method DeleteTwice(svc: ExecutorService, body: Json) returns (r1: Result<Response, Error>, r2: Result<Response, Error>)
    requires svc.Valid()
    modifies svc
    ensures r1 == r2
    ensures match DeletionKey(body)
      case Success(Some(k)) => svc.executorsCache == old(svc.executorsCache) - {k}
      case _ => svc.executorsCache == old(svc.executorsCache)
    ensures svc.sessionsCache == old(svc.sessionsCache)
  {
    r1 := svc.DelExecutor(body);
    r2 := svc.DelExecutor(body);
  }
}
