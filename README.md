# laux asynchronous bridges, modelled in Dafny

laux is a set of Rust libraries that Lua services load. This project models
their asynchronous bridges. Each bridge lets single-threaded Lua code start an
HTTP request, an object-storage operation or a database query on a shared
Tokio runtime. The Lua code gets a session number back at once. The answer
arrives later, tagged with that session.

The model covers five source files:

- `lib-core/src/context.rs`: the process-wide HTTP client cache, keyed by
  `"<timeout>_<proxy>"` (module `ClientPool`).
- `httpc/src/lua_http.rs`: the poll-queue HTTP module (module `Httpc`). It
  has an atomic session counter, an `mpsc` channel that spawned tasks write
  to, and a non-blocking `poll`.
- `lib-lualib/src/lua_http.rs`: the callback HTTP module (module
  `CallbackHttp`). The caller supplies owner and session. The task answers
  through the host's send function. `decode` turns a delivered response into a
  table.
- `lib-lualib/src/lua_sqlx.rs`: the database bridge.
  - `Sqlx` covers `connect`, `find_connection`, `query`, `close` and
    `decode`.
  - `SqlxActor` covers the per-connection actor, `database_handler`, and its
    retry policy.
  - `SqlxRows` covers `process_rows`.
- `lib-lualib/src/lua_opendal.rs`: the object-storage bridge (module
  `Storage`).

`HttpShared` holds what the two HTTP modules share: header extraction,
version names, and response-header tables. `Bridge` holds the common types:
`Option`, `Result`, the integer subset types, the dispatch reply and the
delivery record.

How the model represents the source:

- State the source updates in place becomes a class: the client cache, the
  HTTP context and its channel, the callback bridge, the database registry,
  each connection actor, and the storage bridge.
- Loops over Lua tables or row sets become methods with loop invariants. They
  are proved against recursive specification functions (`LastWins`,
  `RowUpTo`, `TablesUpTo`).
- The connection actor is also given as a pure step function, `Step`, and its
  closure, `Drain`. `ConnectionActor.Run` is proved to compute `Drain`. The
  retry policy is stated as lemmas about `Drain`.
- External libraries are oracle parameters. These are reqwest, sqlx, opendal,
  serde_json and the Lua JSON encoder. Each parameter says what the library
  did: whether the proxy parsed, what the exchange returned, which attempts
  of a query fail, whether the pool came up in time.
- A spawned task runs to completion at the point where it is spawned.

## Model

| member | source | states |
|---|---|---|
| ClientPool.Decimal | rust/crates/libs/lib-core/src/context.rs:29 | the `{}` rendering of the timeout is a non-empty run of decimal digits |
| ClientPool.DecimalRoundTrip | rust/crates/libs/lib-core/src/context.rs:29 | reading that rendering back gives the timeout, so the key loses nothing of it |
| ClientPool.FingerprintInjective | rust/crates/libs/lib-core/src/context.rs:29 | two (timeout, proxy) pairs with the same cache key are the same pair, so two configurations never share a cached client |
| ClientPool.BuildClient | rust/crates/libs/lib-core/src/context.rs:34-46 | a client is configured exactly when the build succeeds (otherwise it is reqwest's default client); a configured client has the timeout; it has a proxy exactly when the proxy string is non-empty and parses, and that proxy is the string |
| ClientPool.ClientCache.constructor | rust/crates/libs/lib-core/src/context.rs:16 | the cache starts empty and every stored client fits its key |
| ClientPool.ClientCache.GetHttpClient | rust/crates/libs/lib-core/src/context.rs:28-50 | on a hit: the stored client, map unchanged; on a miss: the built client, now stored under the key, every other entry untouched; the result fits (timeout, proxy), and every cached client still fits the configuration its key encodes |
| HttpShared.VersionToString | rust/crates/libs/httpc/src/lua_http.rs:91-100 | the name is "Unknown" exactly for a version outside HTTP/0.9 to HTTP/3 |
| HttpShared.VersionToStringInjective | rust/crates/libs/lib-lualib/src/lua_http.rs:24-33 | distinct versions get distinct names |
| HttpShared.Lower | rust/crates/libs/lib-lualib/src/lua_http.rs:201 | lower-casing keeps the length and maps each character on its own |
| HttpShared.LowerIsLower | rust/crates/libs/httpc/src/lua_http.rs:276 | a lower-cased header name has no upper-case letter left |
| HttpShared.Inserts | rust/crates/libs/httpc/src/lua_http.rs:133-146 | one insert per table entry, in iteration order; a missing key or value reads as "" and the name is lower-cased as `HeaderName` stores it |
| HttpShared.HeaderRejectedUnique | rust/crates/libs/httpc/src/lua_http.rs:133-144 | a rejection message is determined by the table (it is the first bad entry's, a bad name before a bad value), and a rejected table is not all-valid |
| HttpShared.HeadersUpToInserts | rust/crates/libs/httpc/src/lua_http.rs:133-146 | the map after the first n entries is the last-wins map of their inserts |
| HttpShared.ExtractHeaders | rust/crates/libs/httpc/src/lua_http.rs:126-151 | Ok exactly when every entry's name and value parse; the map is the last-wins map of the inserts; an Err carries the first failing entry's message |
| HttpShared.Trim | rust/crates/libs/lib-lualib/src/lua_http.rs:202 | a trimmed value is no longer than the input and starts and ends with neither a space nor a tab |
| HttpShared.TrimCutsOuterBlanks | rust/crates/libs/lib-lualib/src/lua_http.rs:202 | the trimmed value is a contiguous slice of the input: only spaces and tabs are cut, and only before and after it |
| HttpShared.TrimKeepsVisible | rust/crates/libs/lib-lualib/src/lua_http.rs:202 | trimming a visible-ASCII value leaves it visible ASCII |
| HttpShared.Cells | rust/crates/libs/lib-lualib/src/lua_http.rs:200-204 | one (lower-cased name, value text) cell per response header, in order; a value that is not visible ASCII reads as "" and is trimmed when asked |
| HttpShared.HeaderTable | rust/crates/libs/httpc/src/lua_http.rs:274-280 | the Lua headers table is the last-wins map of the cells: a repeated header keeps its last value |
| HttpShared.HeaderTableClean | rust/crates/libs/lib-lualib/src/lua_http.rs:197-205 | every key of the table is lower case and some header's lower-cased name, every value is visible ASCII, and trimmed values have no blank at either end |
| Httpc.FillRequestFields | rust/crates/libs/httpc/src/lua_http.rs:168-176 | field by field: an absent method, url, body, timeout or proxy becomes "GET", "", "", 5 or "", and a present one is taken as given; the session and the header map are the ones handed in |
| Httpc.TaskResult | rust/crates/libs/httpc/src/lua_http.rs:102-124 | the task's result is a response exactly when the method parses, the exchange answers and the body is read; the response carries the version name, status, headers and body; otherwise the error is "invalid HTTP method", the exchange's text, or the body-read error |
| Httpc.CounterAfterValue | rust/crates/libs/httpc/src/lua_http.rs:24 | after n allocations from the counter that starts at 1 it holds n + 1, while n < I64_MAX |
| Httpc.SessionsDistinct | rust/crates/libs/httpc/src/lua_http.rs:165-167 | sessions handed out before the counter wraps are positive and strictly increasing |
| Httpc.CounterWraps | rust/crates/libs/httpc/src/lua_http.rs:165-167 | `fetch_add` wraps: after I64_MAX allocations the counter is I64_MIN |
| Httpc.Sessions | rust/crates/libs/httpc/src/lua_http.rs:57 | the sessions of the queued messages, in queue order |
| Httpc.SessionAppended | rust/crates/libs/httpc/src/lua_http.rs:165-167 | handing out the current counter value keeps the sent sessions increasing and below the advanced counter |
| Httpc.Channel.constructor | rust/crates/libs/httpc/src/lua_http.rs:332-333 | the channel starts empty, holding its own sender |
| Httpc.Channel.Send | rust/crates/libs/httpc/src/lua_http.rs:122 | the message is appended to the queue, and every message sent is either received or still queued, in order |
| Httpc.Channel.Poll | rust/crates/libs/httpc/src/lua_http.rs:245-302 | FIFO: the oldest message comes out as (session, table), where a response gives version, status, body and its last-wins headers, and an error gives status_code -1 with the text as body; an empty queue answers "Again"; "Closed" never happens because the channel holds a sender |
| Httpc.HttpContext.constructor | rust/crates/libs/httpc/src/lua_http.rs:14-31 | the counter starts at 1, with an empty client cache and an empty channel |
| Httpc.HttpContext.PerformRequest | rust/crates/libs/httpc/src/lua_http.rs:102-124 | the client for (timeout, proxy) is now cached; only a complete response is put on the channel; every other outcome comes back as the error to report |
| Httpc.HttpContext.Request | rust/crates/libs/httpc/src/lua_http.rs:153-197 | a bad header refuses the call with the first error before the counter moves; otherwise the counter advances even without a runtime ("No tokio runtime"); with one, the session is returned and exactly one message for it, the task's result, is queued; sessions stay positive and increasing until the counter wraps |
| CallbackHttp.FillRequestFields | rust/crates/libs/lib-lualib/src/lua_http.rs:94-105 | field by field: an absent owner, session, method, url, body, timeout or proxy becomes 0, 0, "GET", "", "", 5 or "", and a present one is taken as given; the header map is the one handed in |
| CallbackHttp.TaskDelivery | rust/crates/libs/lib-lualib/src/lua_http.rs:108-119 | the one delivery goes to the request's owner and session; it is the response handle under the caller's message type exactly when the method parses and the exchange answers, and otherwise the error text under PTYPE_ERROR |
| CallbackHttp.Decode | rust/crates/libs/lib-lualib/src/lua_http.rs:177-208 | the table holds the version name, the status code and the headers, lower-cased, trimmed, last value winning |
| CallbackHttp.CallbackBridge.constructor | rust/crates/libs/lib-lualib/src/lua_http.rs:39-107 | the bridge starts with nothing sent, the runtime present or not as `CONTEXT.get_tokio_runtime()` gives it, and the shared client cache |
| CallbackHttp.CallbackBridge.PerformRequest | rust/crates/libs/lib-lualib/src/lua_http.rs:35-51 | the client is cached under its key; a parsed method and an answered exchange send the response handle; otherwise nothing is sent and the error is returned for the caller to send |
| CallbackHttp.CallbackBridge.Request | rust/crates/libs/lib-lualib/src/lua_http.rs:80-129 | a bad header refuses the call with the first error and sends nothing; no runtime refuses with "No tokio runtime"; otherwise the caller's session (0 when absent) is returned and exactly one delivery is made |
| SqlxRows.CellValue | rust/crates/libs/lib-lualib/src/lua_sqlx.rs:428-456 | each type-name class gives its own Lua type (nil, boolean, integer, float, string for text and for everything else), and a value its decoder refuses becomes false, 0, 0.0 or "" |
| SqlxRows.SetCell | rust/crates/libs/lib-lualib/src/lua_sqlx.rs:426-460 | the column's key is set exactly when its type is not NULL, to the converted value; a NULL column leaves the key unset |
| SqlxRows.SetCellFrame | rust/crates/libs/lib-lualib/src/lua_sqlx.rs:458-460 | setting one column leaves every other key of the row table as it was |
| SqlxRows.NullColumnReadsAsZero | rust/crates/libs/lib-lualib/src/lua_sqlx.rs:429-431 | as written, a column of type NULL is set to the integer 0 (`LUA_TNIL`); the corrected `SetCell` leaves it absent (nil) |
| SqlxRows.RowErrSticks | rust/crates/libs/lib-lualib/src/lua_sqlx.rs:462-469 | once a cell of a row cannot be read, the row's outcome is that failure whatever follows |
| SqlxRows.TablesErrSticks | rust/crates/libs/lib-lualib/src/lua_sqlx.rs:462-469 | once a row fails, the outcome of the whole result is that failure |
| SqlxRows.RowTable | rust/crates/libs/lib-lualib/src/lua_sqlx.rs:424-471 | the loop over the columns builds the row's table or stops at the first unreadable cell, as `RowUpTo` says |
| SqlxRows.ProcessRows | rust/crates/libs/lib-lualib/src/lua_sqlx.rs:385-478 | the loop over the rows, using the first row's columns, gives `ProcessedRows`; no rows give an empty array |
| SqlxRows.RowUpToOk | rust/crates/libs/lib-lualib/src/lua_sqlx.rs:424-471 | a row converts exactly when all of its first n cells can be read |
| SqlxRows.RowUpToContents | rust/crates/libs/lib-lualib/src/lua_sqlx.rs:424-461 | a converted row has only column names as keys, and the last column with a given name decides that key: present exactly when its type is not NULL, with its converted value |
| SqlxRows.TablesUpToOk | rust/crates/libs/lib-lualib/src/lua_sqlx.rs:419-476 | the first n rows convert exactly when each of them is readable in every column |
| SqlxRows.TablesUpToValue | rust/crates/libs/lib-lualib/src/lua_sqlx.rs:419-476 | converted rows give one table per row, in row order, each the row's own conversion |
| SqlxRows.RowUpToFirstError | rust/crates/libs/lib-lualib/src/lua_sqlx.rs:424-471 | a failed row carries the column name and error of its first unreadable cell in column order |
| SqlxRows.TablesUpToFirstError | rust/crates/libs/lib-lualib/src/lua_sqlx.rs:419-476 | a failed conversion carries the failure of the first row that is not fully readable |
| SqlxRows.ProcessedRowsFirstError | rust/crates/libs/lib-lualib/src/lua_sqlx.rs:419-476 | a failed `process_rows` carries the column name and error of the first unreadable cell, rows taken in order and each row's cells in column order |
| SqlxRows.ProcessedRowsShape | rust/crates/libs/lib-lualib/src/lua_sqlx.rs:385-478 | `(false, message)` exactly when some cell of some row cannot be read; otherwise one table per row whose keys are column names, each column present exactly when not NULL with its converted value (the corrected NULL store of the Findings); `ProcessedRowsFirstError` says which cell's message it is |
| SqlxRows.RowAsWrittenDiffers | rust/crates/libs/lib-lualib/src/lua_sqlx.rs:424-471 | the row loop as written fails exactly when the corrected one does, with the same error; otherwise the two tables agree on every key the corrected one has, and the as-written one adds exactly the names of NULL columns, each holding the integer 0 |
| SqlxRows.TablesAsWrittenDiffer | rust/crates/libs/lib-lualib/src/lua_sqlx.rs:419-476 | over the rows, the as-written and corrected loops fail alike or give equally many tables, each pair differing only by the NULL columns read as 0 |
| SqlxRows.ProcessedRowsAsWrittenDiffer | rust/crates/libs/lib-lualib/src/lua_sqlx.rs:385-478 | `process_rows` as written and corrected give the same failure, or per-row tables that differ only by the NULL columns read as 0 |
| SqlxActor.ErrorText | rust/crates/libs/lib-lualib/src/lua_sqlx.rs:563 | the display text of a database error ends with the server's message |
| SqlxActor.Step | rust/crates/libs/lib-lualib/src/lua_sqlx.rs:166-219 | one step of the handler keeps the actor's owner, message type and backend, shrinks the queue or the pending attempts, and adds at most one answer and at most one log line |
| SqlxActor.Drain | rust/crates/libs/lib-lualib/src/lua_sqlx.rs:158-221 | running the handler until it waits or ends leaves it unable to step, only adds answers and logs, and does nothing to an actor that has ended |
| SqlxActor.StepAppend | rust/crates/libs/lib-lualib/src/lua_sqlx.rs:166 | operations queued later do not change the current step, except that `Close` drops them |
| SqlxActor.DrainAppend | rust/crates/libs/lib-lualib/src/lua_sqlx.rs:166-218 | operations are handled in queue order: later ones are handled after the earlier ones finish, wait behind a query still retrying, and are never handled after a `Close` |
| SqlxActor.Repeat | rust/crates/libs/lib-lualib/src/lua_sqlx.rs:198-209 | n copies of one log level |
| SqlxActor.FailingRuns | rust/crates/libs/lib-lualib/src/lua_sqlx.rs:186-212 | n failed runs of a session-0 query send nothing; they lengthen the failure streak by n and log Error for every failure but the streak's first, keeping the same query current |
| SqlxActor.RetryUntilSuccess | rust/crates/libs/lib-lualib/src/lua_sqlx.rs:167-212 | a session-0 query that fails k times, then succeeds, makes exactly one answer, the rows, on session 0; it logs k-1 errors and then one Info when k > 0, and the actor moves on to the next operation |
| SqlxActor.SingleAnswer | rust/crates/libs/lib-lualib/src/lua_sqlx.rs:170-196 | a query on a non-zero session runs once and makes exactly one answer, the rows or the error, with no log |
| SqlxActor.SendErrorText | rust/crates/libs/lib-lualib/src/lua_sqlx.rs:351-356 | a refused send always has a message for the ERROR table |
| SqlxActor.ConnectionActor.constructor | rust/crates/libs/lib-lualib/src/lua_sqlx.rs:238 | a new actor is idle, with an empty queue, no answers and no logs |
| SqlxActor.ConnectionActor.TrySend | rust/crates/libs/lib-lualib/src/lua_sqlx.rs:340-346 | an ended actor refuses with Closed, a queue of 100 with Full; otherwise the operation is appended and nothing else changes |
| SqlxActor.ConnectionActor.Receive | rust/crates/libs/lib-lualib/src/lua_sqlx.rs:166-169 | taking the next operation is one `Step` |
| SqlxActor.ConnectionActor.RunAttempt | rust/crates/libs/lib-lualib/src/lua_sqlx.rs:170-213 | one run of the current query is one `Step` |
| SqlxActor.ConnectionActor.Run | rust/crates/libs/lib-lualib/src/lua_sqlx.rs:158-221 | the handler loop ends in the state `Drain` gives |
| Sqlx.PrefixHead | rust/crates/libs/lib-lualib/src/lua_sqlx.rs:51 | a string with a non-empty prefix starts with that prefix's first character |
| Sqlx.SchemeDispatch | rust/crates/libs/lib-lualib/src/lua_sqlx.rs:51-76 | the backend is MySQL, Postgres or SQLite exactly when the URL starts with that scheme, and there is none exactly when it starts with none of them |
| Sqlx.OpenPool | rust/crates/libs/lib-lualib/src/lua_sqlx.rs:33-77 | an unknown scheme is "Unsupported database type"; a pool opens only for its scheme's backend and only before the timeout, a pool that is not ready giving the timeout text or the driver's error; for SQLite the file check and creation come first, and a failed check or a failed creation ends the connect with its error |
| Sqlx.Classify | rust/crates/libs/lib-lualib/src/lua_sqlx.rs:281-337 | booleans, integers and floats bind as such; a string or encoded table that opens with `{` or `[` and parses binds as JSON; otherwise a string binds as text and a table as bytes; an encoder error or another Lua type raises |
| Sqlx.ClassifyParams | rust/crates/libs/lib-lualib/src/lua_sqlx.rs:278-338 | Ok exactly when every argument classifies, with the bindings in order; otherwise an argument's error |
| Sqlx.QueryConnection | rust/crates/libs/lib-lualib/src/lua_sqlx.rs:266-360 | a missing connection or a bad argument raises and queues nothing; otherwise the query with its bindings is queued and the session returned, or an ERROR table says the queue is full or closed and nothing is queued; the query is accepted exactly when the actor is running and its queue has room; a bad argument is the first one that does not bind |
| Sqlx.CloseConnection | rust/crates/libs/lib-lualib/src/lua_sqlx.rs:362-383 | a missing connection raises; `Close` is queued and true returned exactly when the actor is running and its queue has room; otherwise the ERROR table |
| Sqlx.StatusOf | rust/crates/libs/lib-lualib/src/lua_sqlx.rs:544-573 | connect gives message "success" with no kind; a server error gives "DB" with the server's message; any other error gives "ERROR" with its text; a failed connect gives "TIMEOUT" |
| Sqlx.Decode | rust/crates/libs/lib-lualib/src/lua_sqlx.rs:504-577 | rows are decoded by `process_rows` (with the corrected NULL store of the Findings); every other result becomes its status table |
| Sqlx.SqlxBridge.constructor | rust/crates/libs/lib-lualib/src/lua_sqlx.rs:22-24 | the registry of connections starts empty |
| Sqlx.SqlxBridge.Connect | rust/crates/libs/lib-lualib/src/lua_sqlx.rs:223-264 | with no send function the call panics and nothing changes; otherwise the session is returned in every case; with no runtime nothing else happens; an opened pool registers a fresh idle actor under the name, replacing any earlier one, and sends `Connect`; a failure sends its text as TIMEOUT |
| Sqlx.SqlxBridge.FindConnection | rust/crates/libs/lib-lualib/src/lua_sqlx.rs:480-502 | the actor registered under the name, or nil exactly when there is none |
| Storage.ConfigMap | rust/crates/libs/lib-lualib/src/lua_opendal.rs:18-25 | the configuration is the last-wins map of the table's entries, a non-string key or value reading as "" |
| Storage.ConfigMapContents | rust/crates/libs/lib-lualib/src/lua_opendal.rs:18-25 | the configuration's keys are exactly the table's keys, each with its last entry's value |
| Storage.OperatorNew | rust/crates/libs/lib-lualib/src/lua_opendal.rs:34-50 | a second argument that is not a table raises first; then an empty scheme gives `(false, "schema is empty")`; a scheme that does not parse or an operator that does not build gives its error; otherwise the operator for the scheme and that configuration |
| Storage.OpNamed | rust/crates/libs/lib-lualib/src/lua_opendal.rs:111-190 | exactly the eight names select an operation; write and rename carry the eighth argument |
| Storage.Checked | rust/crates/libs/lib-lualib/src/lua_opendal.rs:62-190 | the checks in the source's order: a non-userdata first argument, a foreign userdata, no send function, no runtime, an empty path, an unknown name ("Invalid operator name"), an empty rename target ("to is empty", exactly for `rename` with no target once the earlier checks pass); the call spawns exactly when every check passes |
| Storage.PayloadShapes | rust/crates/libs/lib-lualib/src/lua_opendal.rs:111-183 | read sends the bytes, exists sends "true" or "false" as the flag says, write, delete, create_dir and rename send nothing, stat and list send their JSON |
| Storage.HandleResult | rust/crates/libs/lib-lualib/src/lua_opendal.rs:88-109 | a success goes to the caller's owner and session under its message type with the payload; a failure goes under message type 4 with the error text |
| Storage.StorageBridge.constructor | rust/crates/libs/lib-lualib/src/lua_opendal.rs:82 | the bridge starts with nothing sent and the runtime present or not as `CONTEXT.get_tokio_runtime()` gives it |
| Storage.StorageBridge.Operators | rust/crates/libs/lib-lualib/src/lua_opendal.rs:62-199 | a failed check raises or returns `(false, message)` and sends nothing; otherwise the session is returned and exactly one delivery, the operation's result, is made; a successful result has the shape its operation returns |

## Left out

- Lua stack handling is not modelled: pushing, popping, table creation, userdata, metatables and `__gc`. The model works on the values the Lua side supplies and receives.
- The raw-pointer results are not modelled. `decode` is given the delivered value directly. The source lets a handle be taken only once; a second `decode` of the same pointer is undefined behaviour.
- Concurrency is not modelled. Each spawned task runs to completion where it is spawned, so the order in which tasks finish across sessions is one fixed order. The connection actor is the exception: `TrySend` and `Run` interleave freely.
- Thread safety is not modelled: DashMap locking, the relaxed atomic counter, and two first-time lookups of the same cache key racing.
- The one-second sleep between retries has no model, since time is absent. The connect timeout value (the seventh argument, default 5000 ms) only shows up as the pool oracle answering `Elapsed`.
- reqwest, sqlx, opendal and serde_json are oracle parameters, and so is the Lua JSON encoder `encode_one`. The model's `SqlError` keeps three of sqlx::Error's variants (Configuration, Database, Io); every other variant is `Other`, carrying its display text.
- `make_query`, the bind loop at lua_sqlx.rs lines 79-103, is not modelled. It only hands the bindings to sqlx; the model keeps them in the queued query.
- `form_urlencode` and `form_urldecode` are marshalling helpers and are not modelled.
- Log messages are modelled only by level; their text is left out.
- The decode-error message of `process_rows` is reduced to the column name and the driver's error. Its `{:?}` formatting is not modelled.
- The JSON rendering of `stat` and `list` is carried as opaque text. That includes the key spelled "memtadata" at lua_opendal.rs line 172.
- `lua_newuserdata` failure in `new` and `find_connection` is not modelled (an allocation failure).
- The ERROR-table branch of `decode` for rows (lua_sqlx.rs 512-519, 523-530, 534-541) is not modelled. `process_rows` never returns `Err`, so that branch cannot run.
- An actor that is replaced in the registry is not ended by the model. Its sender is dropped there, and in the source the actor ends once no handle to it remains. The model ends an actor only on `Close`, and a queue whose senders are all gone is not modelled.
- SqlxActor.ConnectionActor.Run: each actor keeps its own answers and logs rather than one shared host mailbox. `Run` stops when the actor has to wait; it stands for the handler between two suspension points.
- SqlxActor.ErrorText: sqlx's display texts are reduced to the prefix each variant adds, and `Other` carries its full text.
- SqlxRows, Sqlx.Decode: the row conversion the rest of the model uses stores nothing for a NULL column, the corrected behaviour in the Findings. The code as written stores the integer 0 there; `ProcessedRowsAsWrittenDiffer` proves that this is the only difference.
- Httpc.HttpContext: each context owns one channel. In the source `luaopen_httpc` (httpc/src/lua_http.rs 323-339) makes one channel per opened module, while the session counter and the client cache are the single process-wide `CONTEXT` (line 15). Several modules sharing one counter and one cache are not modelled.
- Sqlx.SqlxBridge.Connect: the panic of `unwrap` with no send function (lua_sqlx.rs line 226) is modelled as an error result with no state change; unwinding into Lua is not modelled.
- Sqlx.SqlxBridge.Connect: a connect that never answers when there is no runtime is modelled as written. The session is returned, but no task is spawned and nothing is ever sent to it.
- Storage.StorageBridge.Operators: the storage result is an oracle. It is required to have the shape of the operation chosen, which `PayloadShapes` describes; its content is not modelled.
- HttpShared.ExtractHeaders: the Lua table's iteration order is an input, because `lua_next` gives no order.
- PTYPE_ERROR is defined in the library's root module, which is not part of this model. It is taken as 4, the literal lua_opendal.rs uses for the same purpose.
- context.rs builds its runtime with `expect`, which panics on failure. lib-lualib calls a `get_tokio_runtime` accessor that is not in context.rs. Both HTTP flavours and the database and storage bridges take the runtime's availability as a constructor parameter.
- The httpc module keeps its own copy of `get_http_client` (httpc/src/lua_http.rs 66-88), the same code as context.rs 28-50. `Httpc.HttpContext` uses `ClientPool.ClientCache` for it.
- The first failure of a retry streak leaves no log line: line 198 of lua_sqlx.rs logs only when `failed_times > 0`.
- The httpc poll answers only a message or "Again": the channel keeps its own sender alive, so `Disconnected` cannot occur.

## Findings

| source | as written | input that shows it | evidently intended | confidence | as-written member | corrected member |
|---|---|---|---|---|---|---|
| rust/crates/libs/lib-lualib/src/lua_sqlx.rs:429-431 | a column whose type name is "NULL" pushes `ffi::LUA_TNIL`, the integer constant 0, as the field's value | a SQLite query `SELECT NULL AS x`: the column's type name is "NULL", and the row table gets `x = 0` | the field is nil, so the key is absent from the row table | medium (assumes the integer constant is pushed as a Lua integer); not executed | SqlxRows.NullColumnReadsAsZero | SqlxRows.SetCell |
