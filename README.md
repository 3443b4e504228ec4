# Executor wrapper caches, in Dafny

This project models `ExecutorService` from
`mindsdb/api/mysql/mysql_proxy/executor/executor_wrapper.py`. It is the HTTP
bridge that keeps long-lived SQL `Executor` objects and their
`SessionController` sessions in two in-memory dictionaries, keyed by
identifiers that the caller sends with every request. The model proves
several properties of the two dictionaries:

- a cached executor is handed back as the same object;
- a miss reuses or creates the session under `session_id` and overwrites (not merges) its five fields from the request's `session` snapshot;
- a miss then builds an executor bound to that session and a `SqlServerStub` carrying `connection_id`;
- each delete endpoint removes at most one key and never touches the other dictionary.

Files, one module each:

- `wrappers.dfy` (`Wrappers`): `Option` and `Result`.
- `json.dfy` (`Json`): decoded request bodies and the Python operations the wrapper applies to them.
  - `d[key]` (`Subscript`): `KeyError` on a missing key, `TypeError` on a non-dictionary.
  - `d.get(key)` (`Get`): null when the key is absent, `AttributeError` on a non-dictionary.
  - dictionary-key hashing (`HashKey`): lists and dictionaries are unhashable; `True`/`False` are the same keys as `1`/`0`.
- `sessions.dfy` (`Sessions`): the five resynchronised fields, the `SessionController` class, and `Overwrite`/`Resync`. `Resync` is the ordered field-by-field copy of lines 82-86; it stops at the first lookup that raises.
- `executors.dfy` (`Executors`): the engine boundary.
  - `Executor` is a class whose `session` and `sqlServer` are fixed at construction.
  - Its engine state is abstracted as the list of engine calls made on it (`history`).
  - `SqlServerStub` is a record holding `connection_id`.
- `executor_wrapper.dfy` (`ExecutorWrapper`): the `ExecutorService` class, with `executorsCache` and `sessionsCache` as `map` fields, plus its operations.
  - `RouteOf` is a pure function: the hit/miss classification in the order `_get_executor` reads the request.
  - Two-state predicates `Resolves` and `MissResolves` state the whole effect of `_get_executor` on the caches, the sessions and the ambient context.
  - Client scenarios chain several requests.

The model follows the code as written:

- Sessions are resynchronised only on an executor miss. On a hit `_get_executor` returns at line 69, before any session lookup.
- On a hit, `session_id` is ignored. An executor created for one session is returned to a caller naming another (`HitIgnoresSessionId`), and nothing checks for the mismatch.
- Required fields are not validated up front. A request can fail after it has changed state, for example when `connection_id` or a session field is missing. By then the session has already been created or partly overwritten. `Resolves` states exactly which assignments have happened when the exception is raised.
- Exceptions are not mapped to structured responses; they propagate. The model returns them as `Failure(KeyError(..))`, `Failure(TypeError(..))` or `Failure(AttributeError)`.
- Deleting a session does not cascade. An executor bound to a deleted session stays cached and keeps the session object and its last snapshot (`DeleteSessionKeepsExecutor`).
- JSON `null` is a valid `id` for `_get_executor`: the executor is cached under `None`. No `del_executor` request can then remove it, because the delete endpoint treats a null `id` as "nothing to delete" (`NullIdIsNeverDeleted`).

## Definitions

These functions and predicates give the Python semantics the contracts are written in. They have no rows of their own: the lemmas and methods listed under "## Model" state their properties.

- `Json.Subscript` (executor_wrapper.py lines 65-66, 70, 78, 82-87): `v[name]` on a decoded body.
- `Json.Get` (line 113, line 121 and the handlers' `params.get`): `v.get(name)`.
- `ExecutorWrapper.KeyAt` (lines 66-67, 70-71): `params[name]` used as a dictionary key.
- `ExecutorWrapper.Built` (lines 82-87): the stub's connection id, read only once the five assignments raised nothing.
- `ExecutorWrapper.CallFor` (lines 127-182): the engine call each POST endpoint makes.
- `Sessions.SessionFields.Get`, `Sessions.Complete`, `Sessions.SnapshotFields` (which requires a complete snapshot): the five fields as a value, and the snapshot that carries all of them.
- `Sessions.SessionFields.Set`: one field assignment; its contract says it changes that field alone.
- `ExecutorWrapper.ExecutorService.Resolves`, `MissResolves`, `SessionSynced`, `ExecutorBuilt`, `Untouched`: two-state predicates stating the effect of `_get_executor` on the caches, the sessions and the context.

## Model

| member | source | states |
|---|---|---|
| `Json.HashKey` | mindsdb/api/mysql/mysql_proxy/executor/executor_wrapper.py:66-67 | a value used as a dictionary key raises TypeError exactly when it is a list or dictionary; a boolean selects the same entry as 0 or 1 |
| `Json.SameKeyIffPyEqual` | mindsdb/api/mysql/mysql_proxy/executor/executor_wrapper.py:67 | two hashable request values select the same cache entry if and only if Python considers them equal |
| `Json.GetAgreesWithSubscript` | mindsdb/api/mysql/mysql_proxy/executor/executor_wrapper.py:113 | `.get(name)` yields what `[name]` yields wherever `[name]` succeeds, null exactly where `[name]` raises KeyError (or the entry is null), and AttributeError exactly where `[name]` raises TypeError |
| `Sessions.Overwrite` | mindsdb/api/mysql/mysql_proxy/executor/executor_wrapper.py:82-86 | the ordered field copy raises TypeError before any assignment when the snapshot is not a dictionary; on a dictionary its only exception is the KeyError of a named field the snapshot lacks |
| `Sessions.Resync` | mindsdb/api/mysql/mysql_proxy/executor/executor_wrapper.py:82-86 | the resynchronisation raises nothing exactly when the snapshot carries all five fields, and leaves the session untouched when the snapshot is not a dictionary |
| `Sessions.OverwriteSpec` | mindsdb/api/mysql/mysql_proxy/executor/executor_wrapper.py:82-86 | the field copy touches only the fields it names, raises exactly when one of them is missing, and otherwise leaves every named field equal to the snapshot's value |
| `Sessions.ResyncIsOverwrite` | mindsdb/api/mysql/mysql_proxy/executor/executor_wrapper.py:82-86 | with a complete snapshot the session's five fields afterwards are exactly the snapshot's, whatever they were before (overwrite, not merge) |
| `Sessions.LatestSnapshotWins` | mindsdb/api/mysql/mysql_proxy/executor/executor_wrapper.py:82-86 | after two resynchronisations only the later complete snapshot shows |
| `Sessions.OverwriteStopsAtFirstMissing` | mindsdb/api/mysql/mysql_proxy/executor/executor_wrapper.py:82-86 | when the k-th field is the first missing one, exactly the fields before it have been assigned and that lookup's exception is raised |
| `Sessions.OverwriteIdempotent` | mindsdb/api/mysql/mysql_proxy/executor/executor_wrapper.py:82-86 | resynchronising twice from the same snapshot equals resynchronising once, also for an incomplete snapshot |
| `Sessions.SessionController.constructor` | mindsdb/api/mysql/mysql_proxy/executor/executor_wrapper.py:80 | a new session object; its initial field values are not promised, and every contract about a miss is stated relative to them (the ghost `base`) |
| `Executors.Executor.constructor` | mindsdb/api/mysql/mysql_proxy/executor/executor_wrapper.py:99 | a new executor is bound to the given session and server stub and carries no engine state |
| `Executors.Executor.Invoke` | mindsdb/api/mysql/mysql_proxy/executor/executor_wrapper.py:127-182 | an engine call changes only the executor it is made on, appending itself to that executor's state |
| `Executors.SqlServerStub` | mindsdb/api/mysql/mysql_proxy/executor/executor_wrapper.py:19-22 | the stub records the connection id it is built with and nothing else (built at line 87) |
| `ExecutorWrapper.Index` | mindsdb/api/mysql/mysql_proxy/executor/executor_wrapper.py:107-109 | the liveness probe answers fixed text with status 200 |
| `ExecutorWrapper.AmbientContext.Load` | mindsdb/api/mysql/mysql_proxy/executor/executor_wrapper.py:65 | loading a context blob makes it the current context |
| `ExecutorWrapper.SameKeyAtIffPyEqual` | mindsdb/api/mysql/mysql_proxy/executor/executor_wrapper.py:66-67 | two requests with usable `name` entries select the same cache entry exactly when Python calls the two entries equal |
| `ExecutorWrapper.RouteOf` | mindsdb/api/mysql/mysql_proxy/executor/executor_wrapper.py:65-82 | a request hits exactly when `context` and a hashable `id` are present and `id` is cached; a miss needs `session_id` and `session` and creates a session exactly when `session_id` is not cached |
| `ExecutorWrapper.HitReadsOnlyContextAndId` | mindsdb/api/mysql/mysql_proxy/executor/executor_wrapper.py:65-69 | on a hit only `context` and `id` decide the outcome; `session_id`, `session`, `connection_id` and the session cache do not |
| `ExecutorWrapper.WellFormedRequestResolves` | mindsdb/api/mysql/mysql_proxy/executor/executor_wrapper.py:65-101 | a request with every field present and hashable ids always yields an executor, and on a miss leaves the session holding exactly its snapshot |
| `ExecutorWrapper.DeletionKey` | mindsdb/api/mysql/mysql_proxy/executor/executor_wrapper.py:113-115 | a delete removes nothing when `id` is missing or null, raises TypeError on an unhashable `id`, and never targets the null key |
| `ExecutorWrapper.CallForReadsOnlyItsArgument` | mindsdb/api/mysql/mysql_proxy/executor/executor_wrapper.py:127-182 | an endpoint's engine call is decided by the endpoint and its one `.get` argument alone, and a missing argument reaches the engine as null |
| `ExecutorWrapper.ExecutorService.constructor` | mindsdb/api/mysql/mysql_proxy/executor/executor_wrapper.py:29-30 | a new service starts with both caches empty |
| `ExecutorWrapper.ExecutorService.GetExecutor` | mindsdb/api/mysql/mysql_proxy/executor/executor_wrapper.py:61-101 | on a hit the cached executor is returned and no cache or session changes; on a miss the session is reused or created, overwritten field by field, and a fresh executor bound to it and to `connection_id` is cached under `id`; every exception leaves exactly the effects made before it; no object is cached under two keys |
| `ExecutorWrapper.ExecutorService.SessionFor` | mindsdb/api/mysql/mysql_proxy/executor/executor_wrapper.py:70-81 | a known `session_id` yields the cached session object itself; an unknown one yields a fresh session inserted under it and nowhere else |
| `ExecutorWrapper.ExecutorService.ResyncSession` | mindsdb/api/mysql/mysql_proxy/executor/executor_wrapper.py:82-86 | the five assignments have exactly the effect and the exception of `Resync` |
| `ExecutorWrapper.ExecutorService.SyncSession` | mindsdb/api/mysql/mysql_proxy/executor/executor_wrapper.py:70-86 | the session under `session_id` ends up resynchronised, and every other cached session is unchanged |
| `ExecutorWrapper.ExecutorService.CacheNewExecutor` | mindsdb/api/mysql/mysql_proxy/executor/executor_wrapper.py:99-100 | a fresh executor is inserted under `id` and every other entry is kept |
| `ExecutorWrapper.ExecutorService.ResolveMiss` | mindsdb/api/mysql/mysql_proxy/executor/executor_wrapper.py:70-101 | the miss path does exactly what `MissResolves` states, and a new executor starts with no engine state |
| `ExecutorWrapper.ExecutorService.Dispatch` | mindsdb/api/mysql/mysql_proxy/executor/executor_wrapper.py:127-182 | a POST endpoint has the effects of `_get_executor`, then makes one engine call on the resolved executor only, and answers its state with status 200; an exception from `_get_executor` propagates unchanged |
| `ExecutorWrapper.ExecutorService.DelExecutor` | mindsdb/api/mysql/mysql_proxy/executor/executor_wrapper.py:111-117 | removes the executor key if present and changes nothing else; the session cache is untouched; the answer is an empty body with status 200 unless the body or `id` raises |
| `ExecutorWrapper.ExecutorService.DelSession` | mindsdb/api/mysql/mysql_proxy/executor/executor_wrapper.py:119-125 | removes the session key if present; the executor cache, and each executor's session reference, is untouched |
| `ExecutorWrapper.Connect` | mindsdb/api/mysql/mysql_proxy/executor/executor_wrapper.py:61-101 | a request carrying every field always yields the executor cached under its `id`: the cached one with the session cache unchanged, or a fresh one with no engine state bound to the session under `session_id`, which holds exactly the snapshot, and only that key is added to the session cache |
| `ExecutorWrapper.RepeatedIdReturnsSameExecutor` | mindsdb/api/mysql/mysql_proxy/executor/executor_wrapper.py:67-69 | two requests naming one `id` with no delete in between get the same executor object |
| `ExecutorWrapper.HitIgnoresSessionId` | mindsdb/api/mysql/mysql_proxy/executor/executor_wrapper.py:66-70 | a request naming another session gets the executor still bound to the first session's object |
| `ExecutorWrapper.DeleteThenRecreate` | mindsdb/api/mysql/mysql_proxy/executor/executor_wrapper.py:99-116 | after `del_executor` the same request gets a different, newly built executor with no engine state |
| `ExecutorWrapper.DeleteSessionKeepsExecutor` | mindsdb/api/mysql/mysql_proxy/executor/executor_wrapper.py:119-125 | deleting a session leaves its executor cached and still bound to the same session object (the one cached under `session_id` before, if there was one), which is no longer cached anywhere and keeps its last snapshot |
| `ExecutorWrapper.SessionSharedByExecutors` | mindsdb/api/mysql/mysql_proxy/executor/executor_wrapper.py:70-73 | two executors created under one `session_id` share one session object, which holds the later request's snapshot |
| `ExecutorWrapper.NullIdIsNeverDeleted` | mindsdb/api/mysql/mysql_proxy/executor/executor_wrapper.py:115 | an executor cached under a null `id` survives any `del_executor` request |
| `ExecutorWrapper.DeleteTwice` | mindsdb/api/mysql/mysql_proxy/executor/executor_wrapper.py:115-117 | deleting twice answers alike and leaves the caches as one delete does |

## Left out

- Flask app construction, route registration and `run` (lines 28-58, 103-105): web plumbing. Each endpoint is a method taking the decoded body.
- `Config()`, `initialize_log` and every `logger.info` call: they do not affect the caches. One exception: the log call at lines 75-79 evaluates `params["session"]`, and that can raise, so the model keeps that evaluation.
- `session.to_json()` inside the log call at lines 89-93 is assumed not to raise. `SessionController` is not part of this model.
- `ctx` comes from `mindsdb.utilities.context`, which is not part of this model. `AmbientContext.Load` simply installs the blob and never fails, so a malformed context blob is not modelled.
- The engine is not modelled. `Executor`'s constructor, `stmt_prepare`, `stmt_execute`, `query_execute`, `execute_external`, `parse`, `do_execute` and `to_json` belong to a class that is not part of this model.
  - `Invoke` records the call and changes only its own executor.
  - The response carries that record in place of the encoding `to_json` produces.
- Dispatch: engine exceptions are not modelled. Once an executor is resolved, the model's engine call always succeeds.
- `SessionController()`'s initial field values are not part of this model. The constructor leaves them unspecified. `GetExecutor` exposes them as the ghost result `base`, which matters only when a snapshot is incomplete.
- `SqlServerStub`'s generic `setattr` loop (lines 20-22) is a record with `connection_id` only, the one argument it is ever given (line 87).
- Concurrency is not modelled: Flask worker threads race on the two dictionaries, and `ctx` is thread-local. The model is sequential.
- Strings are sequences of Unicode scalar values: a JSON string holding a lone surrogate (such as `"\ud800"`), which Python decodes to a valid `str` and dictionary key, cannot be represented.
- JSON numbers are integers only. Floats are not modelled, including a float that equals an integer selecting the same dictionary entry as that integer.
- Request bodies that Flask does not decode as JSON are not modelled. The model starts from the decoded value; a JSON `null` body is covered.
