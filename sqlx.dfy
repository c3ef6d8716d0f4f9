/**
 * The Lua-facing side of the database bridge (`rust_sqlx`): `connect`
 * opens a pool chosen by the URL's scheme and registers a connection
 * actor under a name, `find_connection` hands out that actor's queue,
 * `query` and `close` put operations on it without waiting, and `decode`
 * turns a delivered result into Lua values.
 */
module Sqlx {
  import opened Bridge
  import opened SqlxRows
  import opened SqlxActor

  predicate HasPrefix(s: string, prefix: string) {
    |prefix| <= |s| && s[..|prefix|] == prefix
  }

  /** The backend a database URL selects, by its scheme. */
  function BackendFor(url: string): Option<Backend> {
    if HasPrefix(url, "mysql://") then Some(MySql)
    else if HasPrefix(url, "postgres://") then Some(Postgres)
    else if HasPrefix(url, "sqlite://") then Some(Sqlite)
    else None
  }

  lemma PrefixHead(s: string, prefix: string)
    requires |prefix| > 0 && HasPrefix(s, prefix)
    ensures s[0] == prefix[0]
  {
    assert s[..|prefix|][0] == s[0];
  }

  /**
   * The three schemes exclude one another, so the order of the tests does
   * not matter: each backend is selected exactly by its own scheme, and a
   * URL with none of them selects nothing.
   */
  lemma SchemeDispatch(url: string)
    ensures BackendFor(url) == Some(MySql) <==> HasPrefix(url, "mysql://")
    ensures BackendFor(url) == Some(Postgres) <==> HasPrefix(url, "postgres://")
    ensures BackendFor(url) == Some(Sqlite) <==> HasPrefix(url, "sqlite://")
    ensures BackendFor(url).None? <==>
      !HasPrefix(url, "mysql://") && !HasPrefix(url, "postgres://") && !HasPrefix(url, "sqlite://")
  {
    if HasPrefix(url, "mysql://") {
      PrefixHead(url, "mysql://");
    }
    if HasPrefix(url, "postgres://") {
      PrefixHead(url, "postgres://");
    }
  }

  /** What the driver's connect future does: the pool comes up, the timeout fires first, or it fails. */
  datatype PoolOutcome = PoolReady | Elapsed | Refused(error: SqlError)

  /** What SQLite's file checks do: whether the database file exists, and whether creating it works. */
  datatype SqliteFile = SqliteFile(found: Result<bool, SqlError>, created: Result<(), SqlError>)

  const UNSUPPORTED: SqlError := Configuration("Unsupported database type")

  /** The error a connect that outlives its timeout becomes (tokio's `Elapsed` displays as "deadline has elapsed"). */
  const CONNECT_ELAPSED: SqlError := Io("Connection error: deadline has elapsed")

  function PoolResult(b: Backend, pool: PoolOutcome): (r: Result<Backend, SqlError>)
    ensures r.Ok? <==> pool.PoolReady?
    ensures r.Ok? ==> r.value == b
    ensures pool.Elapsed? ==> r == Err(CONNECT_ELAPSED)
    ensures pool.Refused? ==> r == Err(pool.error)
  {
    match pool
    case PoolReady => Ok(b)
    case Elapsed => Err(CONNECT_ELAPSED)
    case Refused(e) => Err(e)
  }

  /**
   * `DatabasePool::connect`: the scheme picks the backend, any other URL
   * is a configuration error; for SQLite a missing database file is
   * created first, and a failure of either check ends the connect.
   */
  function OpenPool(url: string, file: SqliteFile, pool: PoolOutcome): (r: Result<Backend, SqlError>)
    ensures BackendFor(url).None? ==> r == Err(UNSUPPORTED)
    ensures r.Ok? ==> Some(r.value) == BackendFor(url) && pool.PoolReady?
    ensures BackendFor(url).Some? && BackendFor(url) != Some(Sqlite) ==>
      r == PoolResult(BackendFor(url).value, pool)
    ensures BackendFor(url) == Some(Sqlite) ==>
      (r.Ok? <==> file.found.Ok? && (file.found.value || file.created.Ok?) && pool.PoolReady?)
    ensures BackendFor(url) == Some(Sqlite) && file.found.Err? ==> r == Err(file.found.error)
    ensures BackendFor(url) == Some(Sqlite) && file.found == Ok(false) && file.created.Err? ==> r == Err(file.created.error)
    ensures BackendFor(url) == Some(Sqlite) && file.found.Ok? && (file.found.value || file.created.Ok?) ==>
      r == PoolResult(Sqlite, pool)
  {
    match BackendFor(url)
    case None => Err(UNSUPPORTED)
    case Some(Sqlite) =>
      (match file.found
       case Err(e) => Err(e)
       case Ok(present) =>
         if !present && file.created.Err? then Err(file.created.error)
         else PoolResult(Sqlite, pool))
    case Some(b) => PoolResult(b, pool)
  }

  /** A Lua argument of `query`, with what serde_json makes of its text. */
  datatype LuaArg =
    | LuaBool(b: bool)
    | LuaInt(i: i64)
    | LuaFloat(bits: u64)
    | LuaStr(s: string, parsesAsJson: bool)
    | LuaTable(encoding: Result<string, string>, parsesAsJson: bool)
    | LuaOther(typeName: string)

  /** The panic of indexing the first byte of an empty encoding. */
  const EMPTY_ENCODING: string := "index out of bounds: the len is 0 but the index is 0"

  predicate OpensJson(s: string) {
    |s| > 0 && (s[0] == '{' || s[0] == '[')
  }

  /**
   * The bind parameter one argument becomes, or the error it raises: a
   * string or a table's JSON encoding binds as JSON only when it opens with
   * a brace or bracket and parses, otherwise as text or bytes; any type
   * other than boolean, number, string and table raises an error.
   */
  function Classify(arg: LuaArg): (r: Result<QueryParam, string>)
    ensures r.Ok? <==> !arg.LuaOther? && (arg.LuaTable? ==> arg.encoding.Ok? && arg.encoding.value != "")
    ensures r.Ok? && arg.LuaBool? ==> r.value == BoolParam(arg.b)
    ensures r.Ok? && arg.LuaInt? ==> r.value == IntParam(arg.i)
    ensures r.Ok? && arg.LuaFloat? ==> r.value == FloatParam(arg.bits)
    ensures r.Ok? && arg.LuaStr? ==>
      r.value == (if OpensJson(arg.s) && arg.parsesAsJson then JsonParam(arg.s) else TextParam(arg.s))
    ensures r.Ok? && arg.LuaTable? ==>
      r.value == (if OpensJson(arg.encoding.value) && arg.parsesAsJson then JsonParam(arg.encoding.value)
                  else BytesParam(arg.encoding.value))
    ensures r.Ok? && r.value.JsonParam? ==> OpensJson(r.value.json)
    ensures arg.LuaTable? && arg.encoding.Err? ==> r == Err(arg.encoding.error)
    ensures arg.LuaOther? ==> r == Err("concat: unsupport value type :" + arg.typeName)
  {
    match arg
    case LuaBool(b) => Ok(BoolParam(b))
    case LuaInt(i) => Ok(IntParam(i))
    case LuaFloat(bits) => Ok(FloatParam(bits))
    case LuaStr(s, json) => Ok(if OpensJson(s) && json then JsonParam(s) else TextParam(s))
    case LuaTable(encoding, json) =>
      (match encoding
       case Err(e) => Err(e)
       case Ok(buffer) =>
         if |buffer| == 0 then Err(EMPTY_ENCODING)
         else if OpensJson(buffer) && json then Ok(JsonParam(buffer))
         else Ok(BytesParam(buffer)))
    case LuaOther(t) => Err("concat: unsupport value type :" + t)
  }

  /**
   * The parameter loop of `query`: one bind parameter per argument, in
   * argument order, or the error of the first argument that raises one.
   */
  method ClassifyParams(args: seq<LuaArg>) returns (r: Result<seq<QueryParam>, string>)
    ensures r.Ok? <==> forall i :: 0 <= i < |args| ==> Classify(args[i]).Ok?
    ensures r.Ok? ==> |r.value| == |args| && forall i :: 0 <= i < |args| ==> Classify(args[i]) == Ok(r.value[i])
    ensures r.Err? ==> exists i :: 0 <= i < |args| && Classify(args[i]) == Err(r.error)
                                && forall j :: 0 <= j < i ==> Classify(args[j]).Ok?
  {
    var params: seq<QueryParam> := [];
    var i := 0;
    while i < |args|
      invariant 0 <= i <= |args| && |params| == i
      invariant forall j :: 0 <= j < i ==> Classify(args[j]) == Ok(params[j])
    {
      var c := Classify(args[i]);
      if c.Err? {
        return Err(c.error);
      }
      params := params + [c.value];
      i := i + 1;
    }
    r := Ok(params);
  }

  /** A `{kind = ..., message = ...}` table; the connect acknowledgement has no kind. */
  datatype Status = Status(kind: Option<string>, message: string)

  /** What `query` and `close` return: their value, or the error table of a refused send. */
  datatype SendReply<T> = Accepted(value: T) | NotSent(status: Status)

  const INVALID_CONNECTION: string := "Invalid connect pointer"

  /** The panic message of `Option::unwrap` on `None`. */
  const UNWRAP_NONE: string := "called `Option::unwrap()` on a `None` value"

  /**
   * `query`: a missing connection or a bad argument raises an error (Err)
   * and sends nothing; otherwise the query is offered to the queue, and
   * the caller gets its session back, or an ERROR table when the queue is
   * full or closed.
   */
  method QueryConnection(conn: ConnectionActor?, session: i64, sql: string, args: seq<LuaArg>)
    returns (r: Result<SendReply<i64>, string>)
    modifies conn
    ensures conn == null ==> r == Err(INVALID_CONNECTION)
    ensures conn != null && r.Ok? ==> forall i :: 0 <= i < |args| ==> Classify(args[i]).Ok?
    ensures conn != null && r.Err? ==> exists i :: 0 <= i < |args| && Classify(args[i]) == Err(r.error)
                                                && forall j :: 0 <= j < i ==> Classify(args[j]).Ok?
    ensures r.Err? ==> conn == null || conn.State() == old(conn.State())
    ensures r.Ok? && r.value.Accepted? ==>
      && r.value.value == session
      && exists binds: seq<QueryParam> ::
           && |binds| == |args| && (forall i :: 0 <= i < |args| ==> Classify(args[i]) == Ok(binds[i]))
           && conn.State() == old(conn.State()).(channel := old(conn.channel) + [Query(session, DatabaseQuery(sql, binds))])
    ensures r.Ok? && r.value.NotSent? ==>
      && conn.State() == old(conn.State())
      && r.value.status == Status(Some("ERROR"), SendErrorText(if old(conn.terminated) then Closed else Full))
    ensures conn != null && r.Ok? ==> (r.value.Accepted? <==> !old(conn.terminated) && |old(conn.channel)| < CAPACITY)
  {
    if conn == null {
      return Err(INVALID_CONNECTION);
    }
    var params := ClassifyParams(args);
    if params.Err? {
      return Err(params.error);
    }
    var sent := conn.TrySend(Query(session, DatabaseQuery(sql, params.value)));
    match sent {
      case Ok(_) => r := Ok(Accepted(session));
      case Err(e) => r := Ok(NotSent(Status(Some("ERROR"), SendErrorText(e))));
    }
  }

  /** `close`: like `query`, for the `Close` operation, answering true once it is queued. */
  method CloseConnection(conn: ConnectionActor?) returns (r: Result<SendReply<bool>, string>)
    modifies conn
    ensures conn == null <==> r.Err?
    ensures r.Err? ==> r.error == INVALID_CONNECTION
    ensures r.Ok? && r.value.Accepted? ==>
      r.value.value && conn.State() == old(conn.State()).(channel := old(conn.channel) + [Close])
    ensures r.Ok? && r.value.NotSent? ==>
      && conn.State() == old(conn.State())
      && r.value.status == Status(Some("ERROR"), SendErrorText(if old(conn.terminated) then Closed else Full))
    ensures r.Ok? ==> (r.value.Accepted? <==> !old(conn.terminated) && |old(conn.channel)| < CAPACITY)
  {
    if conn == null {
      return Err(INVALID_CONNECTION);
    }
    var sent := conn.TrySend(Close);
    match sent {
      case Ok(_) => r := Ok(Accepted(true));
      case Err(e) => r := Ok(NotSent(Status(Some("ERROR"), SendErrorText(e))));
    }
  }

  /**
   * The table `decode` gives for a result other than rows: the connect
   * acknowledgement has no kind, an error the database server returned is
   * "DB" with the server's message, every other error is "ERROR" with its
   * display text, and a failed connect is "TIMEOUT".
   */
  function StatusOf(r: DatabaseResult): (s: Status)
    requires !r.RowsOf?
    ensures s.kind.None? <==> r.Connected?
    ensures s.kind == Some("DB") <==> r.Failure? && r.error.Database?
    ensures s.kind == Some("ERROR") <==> r.Failure? && !r.error.Database?
    ensures s.kind == Some("TIMEOUT") <==> r.Timeout?
    ensures r.Connected? ==> s.message == "success"
    ensures r.Failure? ==> s.message == (if r.error.Database? then r.error.message else ErrorText(r.error))
    ensures r.Timeout? ==> s.message == r.message
  {
    match r
    case Connected => Status(None, "success")
    case Failure(e) => if e.Database? then Status(Some("DB"), e.message) else Status(Some("ERROR"), ErrorText(e))
    case Timeout(m) => Status(Some("TIMEOUT"), m)
  }

  datatype Decoded = StatusTable(status: Status) | RowsTable(outcome: RowsOutcome)

  /** `decode`: rows go through `process_rows`, every other result becomes its status table. */
  method Decode(r: DatabaseResult) returns (d: Decoded)
    ensures r.RowsOf? ==> d == RowsTable(ProcessedRows(r.rows))
    ensures !r.RowsOf? ==> d == StatusTable(StatusOf(r))
  {
    match r {
      case RowsOf(_, rows) =>
        var outcome := ProcessRows(rows);
        d := RowsTable(outcome);
      case _ =>
        d := StatusTable(StatusOf(r));
    }
  }

  /** The module's process-wide state: the runtime, the named connections, the connect answers. */
  class SqlxBridge {
    const runtimeAvailable: bool
    var connections: map<string, ConnectionActor>
    /** What connect tasks have sent; each actor keeps what it sends itself. */
    var sent: seq<Delivery<DatabaseResult>>

    constructor (runtimeBuilt: bool)
      ensures runtimeAvailable == runtimeBuilt && connections == map[] && sent == []
    {
      runtimeAvailable := runtimeBuilt;
      connections := map[];
      sent := [];
    }

    /**
     * `connect`: without a send function the `unwrap` of line 226 panics
     * before anything happens. Otherwise the caller gets its session back
     * in every case. With no runtime nothing else happens. Otherwise the connect task opens the
     * pool: on success a fresh idle actor is registered under the name
     * (replacing any earlier one) and `Connect` is sent to the session; on
     * failure the error's text is sent to the session as a timeout.
     */
    method Connect(protocolType: u8, owner: u32, callbackPresent: bool, session: i64, url: string, name: string,
                   file: SqliteFile, pool: PoolOutcome, attempts: seq<Attempt>)
      returns (r: Result<i64, string>)
      modifies this
      ensures !callbackPresent ==> r == Err(UNWRAP_NONE) && connections == old(connections) && sent == old(sent)
      ensures callbackPresent ==> r == Ok(session)
      ensures callbackPresent && !runtimeAvailable ==> connections == old(connections) && sent == old(sent)
      ensures callbackPresent && runtimeAvailable && OpenPool(url, file, pool).Ok? ==>
        && name in connections && fresh(connections[name])
        && connections == old(connections)[name := connections[name]]
        && connections[name].State() == Actor(protocolType, owner, OpenPool(url, file, pool).value, [], None, 0, attempts, [], [], false)
        && sent == old(sent) + [Delivery(protocolType, owner, session, Connected)]
      ensures callbackPresent && runtimeAvailable && OpenPool(url, file, pool).Err? ==>
        && connections == old(connections)
        && sent == old(sent) + [Delivery(protocolType, owner, session, Timeout(ErrorText(OpenPool(url, file, pool).error)))]
    {
      if !callbackPresent {
        return Err(UNWRAP_NONE);
      }
      if runtimeAvailable {
        var outcome := OpenPool(url, file, pool);
        match outcome {
          case Ok(backend) =>
            var actor := new ConnectionActor(protocolType, owner, backend, attempts);
            connections := connections[name := actor];
            sent := sent + [Delivery(protocolType, owner, session, Connected)];
          case Err(e) =>
            sent := sent + [Delivery(protocolType, owner, session, Timeout(ErrorText(e)))];
        }
      }
      r := Ok(session);
    }

    /** `find_connection`: the actor registered under the name, or nil. */
    method FindConnection(name: string) returns (c: ConnectionActor?)
      ensures c != null <==> name in connections
      ensures c != null ==> c == connections[name]
    {
      if name in connections {
        c := connections[name];
      } else {
        c := null;
      }
    }
  }
}
