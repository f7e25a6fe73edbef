# Task manager: client task cache and server task store, modelled in Dafny

This project models the two pieces of the task manager that hold state.

- **The client task cache.** This is the `TaskService` of the React front end. It mirrors the server's task list in two local-storage entries: the list and the millisecond time it was saved. A list saved less than five minutes ago is served without a request. Otherwise the list is fetched and saved. When the fetch fails, any cached list is returned, even an expired one. Add, update and delete rewrite the cached list and re-stamp it, but only after the server has answered. Search never touches the cache.
- **The server task store.** These are the Express route handlers for `/api/tasks`, over the `tasks` table. They use `callPythonService` to reach the external embedding process. Creating a task with a description invokes `update_embedding` once and waits for it. How that call settles does not change the 201 answer. Search passes the process's answer through unchanged.

Modules and files:

- `tasks.dfy` (`Tasks`): the values both sides share. These are the task row, a request-body property (`Absent`, `Null` or a string), JavaScript truthiness, JSON values, `Option` and `Outcome`.
- `gateway.dfy` (`Gateway`): `callPythonService`. A run of the process is given as its data events and its exit code. `CallPythonService` folds the events into the output and error text with a loop. `Settle` is the `close` decision. JSON parsing is a parameter of type `string -> Option<Json>`.
- `task_server.dfy` (`TaskServer`): the table is a map from id to row plus the next value of the id sequence. Each handler that changes the table or invokes the gateway (create, update, delete, search) is a pure step function returning the new table, the response and the gateway invocations made. GET has no step function: `TaskStore.GetTasks` answers with `Listing`, the rows of the table newest first. The class `TaskStore` holds `rows` and `nextId` as fields and performs each step in place. Its ghost field `gatewayCalls` records every invocation of the process.
- `task_cache.dfy` (`TaskCache`): each operation that talks to the server (load, add, update, delete, search) is a pure step function returning the new entries, the result or error, and the requests sent. The storage helpers (`isCacheValid`, `getCachedTasks`, `saveTasks`, `clearCache`) are the predicate `CacheValid` and the functions `Saved` and `Cleared`. The class `TaskService` holds the two entries as fields and performs each operation in place. Its ghost field `requests` records every request sent to the server.

Things outside the model are parameters:

- the clock (`now`, and `fetchedAt` for the second clock read in `loadTasks`);
- the outcome of every HTTP request;
- whether a database query faults (`fault`);
- what the embedding process does (`ProcessRun`);
- the JSON parser.

Four points where the code behaves differently from what a reader might expect. The model follows the code on each:

- **Create waits for the embedding call.** The create handler waits for `update_embedding` to finish before it answers (backend/src/app.js:104). It does not answer first and embed in the background.
- **No default status on `null`.** The `'todo'` default is a destructuring default, so it applies only when `status` is missing. A `null` status is stored as NULL.
- **Update does not check the title.** An empty title is stored. A missing title breaks the NOT NULL constraint on `title` (backend/src/app.js:32), and the handler answers 500. For an id with no row the answer is still 404, because no row is touched.
- **Load falls back to expired lists.** When the fetch fails, the cached list is returned even when it has expired.

## Model

| member | source | states |
|---|---|---|
| `Gateway.CallPythonService` | backend/src/app.js:51-69 | Each chunk is appended to its stream's text in arrival order. The promise then settles exactly as the `close` decision says for the exit code and the two texts. |
| `Gateway.ConcatAppend` | backend/src/app.js:53-55 | Joining chunks respects their order: the text of `a + b` is the text of `a` followed by the text of `b`. |
| `Gateway.ChunksAppend` | backend/src/app.js:53-58 | Each stream takes its chunks from a run in order, whatever the interleaving of stdout and stderr events. |
| `Gateway.AccumulatedTextAppend` | backend/src/app.js:51-58 | For a run split at any point, each accumulated text is the first part's text followed by the second part's. |
| `Gateway.SuccessNeverRejects` | backend/src/app.js:60-65 | Exit code 0 never rejects. It resolves to the parse of stdout, or of `'{}'` when stdout is empty. When parsing fails it resolves to `[]`. |
| `Gateway.SilentSuccessIsEmptyObject` | backend/src/app.js:62 | With a parser that reads `{}` as the empty object, a successful process with no output resolves to the empty object. |
| `Gateway.FailureRejects` | backend/src/app.js:66-68 | Any other exit (a non-zero code, or a signal) rejects with the stderr text, or with `'Python script failed'` when it is empty. The message is never empty. |
| `Gateway.StreamsIndependent` | backend/src/app.js:59-68 | Stderr never changes how a successful run resolves. Stdout never changes how a failed run rejects. |
| `TaskServer.RowsIn` | backend/src/app.js:81 | Lists the rows whose ids are in a range, each stored row exactly once and nothing else. |
| `TaskServer.InsertNewestFirst` | backend/src/app.js:81 | Inserting a row into a newest-first list keeps it newest first and adds exactly that row. |
| `TaskServer.SortNewestFirst` | backend/src/app.js:81 | `ORDER BY created_at DESC` yields a permutation of its input with `created_at` never increasing. |
| `TaskServer.ListingExact` | backend/src/app.js:81 | The listing of a valid table holds every row exactly once and nothing else, newest first. |
| `TaskServer.TaskStore.GetTasks` | backend/src/app.js:79-87 | On a fault, 500 `'Failed to fetch tasks'`. Otherwise 200 with every row exactly once, ordered by `created_at` descending. |
| `TaskServer.CreateRequiresTitle` | backend/src/app.js:92-94 | A falsy title answers 400 `'Title is required'`. Nothing is inserted and the gateway is not invoked. |
| `TaskServer.CreateInsertsOneRow` | backend/src/app.js:91-112 | A create with a title inserts one row under an id no row has. The row holds the body's title and description, `'todo'` when status is absent, and the current time. All other rows are unchanged and the answer is 201 with the new row. |
| `TaskServer.CreateFaultChangesNothing` | backend/src/app.js:113-116 | A failed INSERT answers 500 `'Failed to create task'`, changes nothing and invokes nothing. |
| `TaskServer.CreateEmbedsIffDescription` | backend/src/app.js:102-111 | A create invokes the gateway at most once. It does so exactly when the row was inserted (201) and the description is truthy, with `update_embedding` on the new id and that description. |
| `TaskServer.CreateEmbedsExactlyOnce` | backend/src/app.js:102-107 | The invocations of one successful create hold `update_embedding(new id, d)` exactly once when the description is the truthy `d`, and otherwise not at all. |
| `TaskServer.UpdateFaultChangesNothing` | backend/src/app.js:132-135 | A fault of the UPDATE answers 500 `'Failed to update task'`, changes nothing and invokes nothing. |
| `TaskServer.UpdateMissingIsNotFound` | backend/src/app.js:128-130 | PUT on an id with no row answers 404 `'Task not found'` and leaves the table unchanged. |
| `TaskServer.UpdateOverwritesThreeFields` | backend/src/app.js:122-131 | PUT on an existing row overwrites only title, description and status (an absent status becomes NULL). The row keeps its id and creation time, every other row is unchanged, and the answer is 200 with the row. |
| `TaskServer.UpdateTitleNotValidated` | backend/src/app.js:122-127 | PUT accepts an empty title. A missing title on an existing row fails the NOT NULL constraint: 500 and nothing changes. |
| `TaskServer.UpdateNeverEmbeds` | backend/src/app.js:120-136 | PUT never invokes the gateway, even when it changes the description. |
| `TaskServer.DeleteFaultChangesNothing` | backend/src/app.js:147-150 | A fault of the DELETE answers 500 `'Failed to delete task'`, changes nothing and invokes nothing. |
| `TaskServer.DeleteMissingIsNotFound` | backend/src/app.js:142-145 | DELETE on an id with no row answers 404 `'Task not found'` and leaves the table unchanged. |
| `TaskServer.DeleteRemovesOnlyThatRow` | backend/src/app.js:142-146 | DELETE removes that row and no other and leaves the id sequence alone. The answer is 200 and no gateway call is made. |
| `TaskServer.NextIdNeverDecreases` | backend/src/app.js:31 | A create that inserts advances the id sequence by one. Every other request leaves it alone. |
| `TaskServer.ServeNextIdNeverDecreases` | backend/src/app.js:31 | Over any sequence of requests the id sequence never goes back. |
| `TaskServer.ServePreservesValid` | backend/src/app.js:30-31 | Any sequence of requests keeps ids positive, below the sequence's next value, and equal to the row's own id. |
| `TaskServer.FreeIdStaysFree` | backend/src/app.js:31 | An id below the sequence's next value with no row never gets one again, whatever requests follow. |
| `TaskServer.DeletedIdNeverReused` | backend/src/app.js:31 | After a delete, whatever requests follow, the deleted id has no row, and the next create hands out a different id. |
| `TaskServer.SearchPassesThrough` | backend/src/app.js:155-165 | Search never changes the table. A falsy query answers 400 and invokes nothing. Otherwise `search` is invoked once with the query: a resolved value is answered unmodified, a rejection with 500 `'Search failed'`. |
| `TaskServer.HandlersPreserveValid` | backend/src/app.js:30-31 | Every handler keeps ids positive, below the sequence's next value, and equal to the row's own id. |
| `TaskServer.TaskStore.CreateTask` | backend/src/app.js:90-117 | The table, the response and the trace afterwards are those of `Create`, however the embedding process settles. After a 201, the whole trace holds `update_embedding(new id, d)` exactly once when the description is the truthy `d`, and otherwise not at all. |
| `TaskServer.TaskStore.UpdateTask` | backend/src/app.js:120-136 | The table and the response afterwards are those of `Update`, and the trace is unchanged. |
| `TaskServer.TaskStore.DeleteTask` | backend/src/app.js:139-151 | The table and the response afterwards are those of `Delete`, and the trace is unchanged. |
| `TaskServer.TaskStore.SearchTasks` | backend/src/app.js:154-166 | The table is unchanged, and the response and trace are those of `Search` applied to how the process run settles. |
| `TaskCache.TaskService.IsCacheValid` | frontend/src/services/api.js:14-20 | False when no timestamp is stored. Otherwise true iff the current time is less than five minutes (300000 ms) past the timestamp. |
| `TaskCache.TaskService.GetCachedTasks` | frontend/src/services/api.js:22-25 | Returns the stored list, or nothing when none is stored. |
| `TaskCache.TaskService.SaveTasks` | frontend/src/services/api.js:27-30 | Both entries are rewritten: the list, and the time of the call. |
| `TaskCache.TaskService.ClearCache` | frontend/src/services/api.js:32-35 | Both entries are removed. |
| `TaskCache.TaskService.LoadTasks` | frontend/src/services/api.js:37-60 | The entries, result and request log afterwards are those of `Load`. |
| `TaskCache.TaskService.AddTask` | frontend/src/services/api.js:62-74 | The entries, result and request log afterwards are those of `Add`. |
| `TaskCache.TaskService.UpdateTask` | frontend/src/services/api.js:76-88 | The entries, result and request log afterwards are those of `Update`. |
| `TaskCache.TaskService.DeleteTask` | frontend/src/services/api.js:90-101 | The entries, result and request log afterwards are those of `Delete`. |
| `TaskCache.TaskService.SearchTasks` | frontend/src/services/api.js:103-111 | The entries are unchanged. The result is the server's answer or error as it is, and one search request is logged. |
| `TaskCache.ReplaceByIdAt` | frontend/src/services/api.js:81 | The `map` keeps length and order. It puts the returned task exactly where the id matched and leaves every other element as it was. |
| `TaskCache.ReplaceByIdNoMatch` | frontend/src/services/api.js:81 | When no element has the id, the `map` leaves the list as it was. |
| `TaskCache.RemoveByIdAppend` | frontend/src/services/api.js:94 | The `filter` splits over concatenation, so the kept elements stay in their original order. |
| `TaskCache.RemoveByIdCount` | frontend/src/services/api.js:94 | The `filter` drops every element with the id. Every other element is kept as many times as it occurred. |
| `TaskCache.RemoveByIdNoMatch` | frontend/src/services/api.js:94 | When no element has the id, the `filter` leaves the list as it was. |
| `TaskCache.ValidityWindow` | frontend/src/services/api.js:11-20 | With no timestamp the cache is never valid. With one, it is valid iff the time is before timestamp + 300000. |
| `TaskCache.ExpiryIsFinal` | frontend/src/services/api.js:14-20 | Once expired, a cache stays expired as the clock moves forward, until it is rewritten. |
| `TaskCache.LoadServesFreshCache` | frontend/src/services/api.js:38-43 | A valid cache with a list is returned unchanged. No request is sent and the entries do not change. |
| `TaskCache.LoadStoresFetchedList` | frontend/src/services/api.js:45-50 | Otherwise one request is sent. The fetched list is stored exactly, stamped with the time it arrived, and returned. |
| `TaskCache.LoadFallsBackOnFailure` | frontend/src/services/api.js:51-59 | A failed fetch leaves the entries unchanged. It returns any cached list, even an expired one, and rethrows only when no list is cached. |
| `TaskCache.LoadResultIsCached` | frontend/src/services/api.js:37-60 | A list returned by a load is the cached list afterwards. A load throws iff the fetch failed and nothing was cached. It sends at most one request. |
| `TaskCache.LoadTwiceWithinWindow` | frontend/src/services/api.js:37-50 | A load that succeeded, followed by a load while the cache is still valid: the second sends nothing and returns the same list. |
| `TaskCache.FetchedListExpires` | frontend/src/services/api.js:11-50 | After a successful fetch at time t, a load before t + 300000 sends nothing and returns the fetched list. A load at or after that time fetches again. |
| `TaskCache.ClearThenLoadFetches` | frontend/src/services/api.js:32-47 | After `clearCache`, the next load always sends the request and rethrows a failure. |
| `TaskCache.AddPrepends` | frontend/src/services/api.js:62-73 | On success the cached list becomes the new task followed by the old list (empty when nothing was cached), stamped now. On failure the entries are unchanged and the error is rethrown. |
| `TaskCache.AddToEmptyCache` | frontend/src/services/api.js:66-68 | An add with nothing cached leaves a valid cache that holds only the new task. |
| `TaskCache.UpdateReplacesMatching` | frontend/src/services/api.js:76-87 | On success every cached task with the id is replaced by the server's answer. Length, order and all other tasks are kept, and the timestamp is renewed even when nothing matched. On failure nothing changes and the error is rethrown. |
| `TaskCache.DeleteRemovesMatching` | frontend/src/services/api.js:90-99 | On success exactly the cached tasks with the id are removed, the rest are kept in order with their counts, and the timestamp is renewed. On failure nothing changes and the error is rethrown. |
| `TaskCache.MutationRevalidatesStaleList` | frontend/src/services/api.js:93-95 | A delete on an expired cache re-stamps the list it found. Any load in the five minutes after it then serves that list, minus the deleted task, without asking the server. |
| `TaskCache.SearchIgnoresCache` | frontend/src/services/api.js:103-111 | Search leaves the entries unchanged, and its result is the server's answer whatever is cached. |
| `TaskCache.OperationsKeepConsistent` | frontend/src/services/api.js:27-35 | Every operation keeps the two entries both present or both absent. |

## Left out

- Process spawning and its arguments (the action and `JSON.stringify` of the payload) are not modelled. Neither are stream events as bytes, logging, or the embedding process itself. A run is given as already-decoded text chunks. A multi-byte character split across two chunks, which `data.toString()` would mangle, is not modelled.
- A process that never exits, which hangs the request because there is no timeout, is not modelled. Only runs that close are.
- The `embedding` column is not part of the row. The rows the handlers return (`SELECT *` and `RETURNING *`) and the client caches also carry it; the model omits it.
- The races between an in-flight embedding refresh and a later update are concurrency, which the model does not cover. So are unbounded concurrent process spawns, and two browser tabs racing on the stored entries.
- JSON numbers are reals, so a float that cannot be written as a fraction, such as NaN, is not modelled. Search only passes numbers through.
- Request-body properties that are JSON numbers, booleans, arrays or objects are not modelled. A property is missing, `null`, or a string.
- A non-numeric `:id` path segment, which PostgreSQL rejects with a 500, is not modelled. Ids are integers.
- The `VARCHAR(255)` limit on `title` and the `VARCHAR(50)` limit on `status` are not separate checks. A value over either limit is one of the faults the `fault` parameter stands for. The `SERIAL` range limit and sequence values used up by failed inserts are not modelled either.
- The health route, the Express middleware (helmet, cors, JSON body parsing), the error middleware and the unmatched-route 404 handler are not modelled (backend/src/app.js:74-76, 168-177). Neither are `initDB` and the server start.
- The axios transport is not modelled. A request's outcome is a parameter.
- Local-storage serialisation (`JSON.stringify`, `JSON.parse`, `parseInt`) is not modelled. The entries are a task sequence and an integer.
- TaskCache.TaskService.SaveTasks: a local-storage write is assumed to succeed. A throwing `setItem` (a full quota, say) is not modelled. In the code it runs inside the `try` of `loadTasks` and of each mutation. There it makes `loadTasks` fall back to the old cached list or rethrow. It makes add, update and delete reject after the server has already accepted the change. When only the second write fails, it leaves the new list paired with the old timestamp.
- A server answer to GET that is not a JSON array is not modelled. The fetched value is a task sequence.
- `Date.now` is not modelled. Each clock read is a parameter.
- The React component in frontend/src/components/TaskList.js is not part of this model.
