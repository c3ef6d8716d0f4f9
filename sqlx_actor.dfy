/**
 * The connection actor of the database bridge (`database_handler`): the
 * single consumer of one connection's operation queue. It takes one
 * operation at a time; `Close` ends it; a query is run against the pool
 * and answered, except that a failing query on session 0 (a caller that
 * waits for no answer) is retried until it succeeds.
 *
 * The pool is an oracle: `attempts` lists the outcomes its next query
 * runs will have. When that list runs out the actor is suspended, in the
 * middle of a retry streak or waiting for an operation, and a later run
 * resumes it; the one-second sleep between retries is not modelled.
 */
module SqlxActor {
  import opened Bridge
  import opened SqlxRows

  datatype Backend = MySql | Postgres | Sqlite

  /**
   * The `sqlx::Error` variants the bridge tells apart: a configuration
   * error, an error the database server returned (with its message), an
   * I/O error, and every other variant with its display text.
   */
  datatype SqlError = Configuration(detail: string) | Database(message: string) | Io(detail: string) | Other(text: string)

  /** `sqlx::Error`'s display text. */
  function ErrorText(e: SqlError): (s: string)
    ensures e.Database? ==> |e.message| < |s| && s[|s| - |e.message|..] == e.message
  {
    match e
    case Configuration(d) => "error with configuration: " + d
    case Database(m) => "error returned from database: " + m
    case Io(d) => "error communicating with database: " + d
    case Other(t) => t
  }

  /** A bind parameter; a float and a JSON value are kept as their bit pattern and their text. */
  datatype QueryParam = BoolParam(b: bool) | IntParam(i: i64) | FloatParam(bits: u64)
                      | TextParam(s: string) | JsonParam(json: string) | BytesParam(bytes: string)

  datatype DatabaseQuery = DatabaseQuery(sql: string, binds: seq<QueryParam>)

  datatype Op = Query(session: i64, query: DatabaseQuery) | Close

  /** What travels to Lua through the send function. */
  datatype DatabaseResult = Connected | RowsOf(backend: Backend, rows: seq<Row>) | Failure(error: SqlError) | Timeout(message: string)

  /** The outcome of one run of a query against the pool. */
  datatype Attempt = Fetched(rows: seq<Row>) | Failed(error: SqlError)

  /** Log events, by level only. */
  datatype LogLevel = Info | Error

  /** The query the actor is working on: its session and the query. */
  datatype Pending = Pending(session: i64, query: DatabaseQuery)

  /** The whole state of one actor. */
  datatype Actor = Actor(
    protocolType: u8, owner: u32, backend: Backend,
    channel: seq<Op>, current: Option<Pending>, failedTimes: nat,
    attempts: seq<Attempt>, delivered: seq<Delivery<DatabaseResult>>, logs: seq<LogLevel>,
    terminated: bool)

  /** The actor has something to do: an operation to take, or an attempt for its current query. */
  predicate CanStep(s: Actor) {
    !s.terminated && (if s.current.Some? then |s.attempts| > 0 else |s.channel| > 0)
  }

  function Answer(s: Actor, session: i64, r: DatabaseResult): Delivery<DatabaseResult> {
    Delivery(s.protocolType, s.owner, session, r)
  }

  /**
   * One step of `database_handler`: receiving an operation (which starts
   * a fresh failure streak, or ends the actor and drops the queue), or one
   * run of the current query and what follows from its outcome.
   */
  function Step(s: Actor): (r: Actor)
    requires CanStep(s)
    ensures r.protocolType == s.protocolType && r.owner == s.owner && r.backend == s.backend
    ensures |r.channel| < |s.channel| || (r.channel == s.channel && |r.attempts| < |s.attempts|)
    ensures s.delivered <= r.delivered && |r.delivered| <= |s.delivered| + 1
    ensures s.logs <= r.logs && |r.logs| <= |s.logs| + 1
  {
    match s.current
    case None =>
      (match s.channel[0]
       case Close => s.(channel := [], terminated := true)
       case Query(session, q) => s.(channel := s.channel[1..], current := Some(Pending(session, q)), failedTimes := 0))
    case Some(p) =>
      var rest := s.attempts[1..];
      match s.attempts[0]
      case Fetched(rows) =>
        s.(attempts := rest, current := None,
           delivered := s.delivered + [Answer(s, p.session, RowsOf(s.backend, rows))],
           logs := if s.failedTimes > 0 then s.logs + [Info] else s.logs)
      case Failed(e) =>
        if p.session != 0 then
          s.(attempts := rest, current := None, delivered := s.delivered + [Answer(s, p.session, Failure(e))])
        else
          s.(attempts := rest, failedTimes := s.failedTimes + 1,
             logs := if s.failedTimes > 0 then s.logs + [Error] else s.logs)
  }

  /** Everything the actor does until it ends or has to wait. */
  function Drain(s: Actor): (r: Actor)
    ensures !CanStep(r)
    ensures r.protocolType == s.protocolType && r.owner == s.owner && r.backend == s.backend
    ensures s.delivered <= r.delivered && s.logs <= r.logs
    ensures s.terminated ==> r == s
    decreases |s.channel|, |s.attempts|
  {
    if CanStep(s) then Drain(Step(s)) else s
  }

  /**
   * Appending to the queue of an actor that can step changes only that
   * step's queue, unless the step was `Close`, which drops the queue.
   */
  lemma StepAppend(s: Actor, ops: seq<Op>)
    requires CanStep(s)
    ensures CanStep(s.(channel := s.channel + ops))
    ensures Step(s.(channel := s.channel + ops))
         == if Step(s).terminated then Step(s) else Step(s).(channel := Step(s).channel + ops)
  {
    if s.current.None? {
      assert (s.channel + ops)[0] == s.channel[0];
      assert (s.channel + ops)[1..] == s.channel[1..] + ops;
    }
  }

  /**
   * Operations are handled one at a time in queue order: operations sent
   * later change nothing about how the earlier ones are handled. If the
   * earlier ones end the actor (a `Close`), the later ones are never
   * handled; if the actor is left waiting for the pool, they wait behind
   * the current query; if it is left idle, they are handled as if sent to
   * the idle actor.
   */
  lemma {:induction false} DrainAppend(s: Actor, ops: seq<Op>)
    requires !s.terminated
    ensures var d := Drain(s);
      Drain(s.(channel := s.channel + ops)) ==
        if d.terminated then d
        else if d.current.None? then Drain(d.(channel := ops))
        else d.(channel := d.channel + ops)
    decreases |s.channel|, |s.attempts|
  {
    var a := s.(channel := s.channel + ops);
    if CanStep(s) {
      StepAppend(s, ops);
      if !Step(s).terminated {
        DrainAppend(Step(s), ops);
      }
    } else if s.current.None? {
      assert a == s.(channel := ops);
    }
  }

  /** `n` copies of `x`. */
  function Repeat<T>(x: T, n: nat): (r: seq<T>)
    ensures |r| == n && forall i :: 0 <= i < n ==> r[i] == x
  {
    if n == 0 then [] else [x] + Repeat(x, n - 1)
  }

  /**
   * The Error logs of `n` further failures of a streak that already has
   * `prior` failures: one per failure except the streak's first.
   */
  function StreakErrors(prior: nat, n: nat): seq<LogLevel> {
    Repeat(Error, if prior > 0 || n == 0 then n else n - 1)
  }

  /**
   * Failed runs of a query on session 0 send nothing: each lengthens the
   * failure streak, logs Error from the streak's second failure on, and
   * leaves the same query current, to be run again.
   */
  lemma {:induction false} FailingRuns(t: Actor, n: nat)
    requires !t.terminated && t.current.Some? && t.current.value.session == 0
    requires n <= |t.attempts| && forall i :: 0 <= i < n ==> t.attempts[i].Failed?
    ensures Drain(t) == Drain(t.(attempts := t.attempts[n..], failedTimes := t.failedTimes + n,
                                 logs := t.logs + StreakErrors(t.failedTimes, n)))
    decreases n
  {
    if n == 0 {
      assert t.attempts[0..] == t.attempts;
      assert t.logs + [] == t.logs;
    } else {
      var u := Step(t);
      assert u == t.(attempts := t.attempts[1..], failedTimes := t.failedTimes + 1,
                     logs := if t.failedTimes > 0 then t.logs + [Error] else t.logs);
      FailingRuns(u, n - 1);
      assert u.attempts[n - 1..] == t.attempts[n..];
      if t.failedTimes > 0 {
        assert u.logs + StreakErrors(u.failedTimes, n - 1) == t.logs + StreakErrors(t.failedTimes, n);
      } else {
        assert u.logs + StreakErrors(u.failedTimes, n - 1) == t.logs + StreakErrors(t.failedTimes, n);
      }
    }
  }

  /**
   * A query on session 0 that fails `k` times and then succeeds: exactly
   * one answer, the rows, on session 0; k-1 Error logs followed, when k > 0,
   * by one Info log; then the actor moves on to the next operation.
   */
  lemma RetryUntilSuccess(s: Actor, q: DatabaseQuery, k: nat)
    requires !s.terminated && s.current.None? && |s.channel| > 0 && s.channel[0] == Query(0, q)
    requires k < |s.attempts| && (forall i :: 0 <= i < k ==> s.attempts[i].Failed?) && s.attempts[k].Fetched?
    ensures Drain(s) == Drain(s.(channel := s.channel[1..], attempts := s.attempts[k + 1..], failedTimes := k,
                                 delivered := s.delivered + [Answer(s, 0, RowsOf(s.backend, s.attempts[k].rows))],
                                 logs := s.logs + StreakErrors(0, k) + (if k > 0 then [Info] else [])))
  {
    var t := Step(s);
    assert t == s.(channel := s.channel[1..], current := Some(Pending(0, q)), failedTimes := 0);
    FailingRuns(t, k);
    var u := t.(attempts := t.attempts[k..], failedTimes := k, logs := t.logs + StreakErrors(0, k));
    assert u.attempts[0] == s.attempts[k] && u.attempts[1..] == s.attempts[k + 1..];
    assert CanStep(u);
    var logs := s.logs + StreakErrors(0, k) + (if k > 0 then [Info] else []);
    assert k == 0 ==> logs == u.logs;
    assert Step(u) == s.(channel := s.channel[1..], attempts := s.attempts[k + 1..], failedTimes := k,
                         delivered := s.delivered + [Answer(s, 0, RowsOf(s.backend, s.attempts[k].rows))],
                         logs := logs);
  }

  /**
   * A query on a nonzero session is run once: its one answer is the rows
   * or the error, no log is written, and the actor moves on.
   */
  lemma SingleAnswer(s: Actor, session: i64, q: DatabaseQuery)
    requires !s.terminated && s.current.None? && |s.channel| > 0 && s.channel[0] == Query(session, q)
    requires session != 0 && |s.attempts| > 0
    ensures Drain(s) == Drain(s.(channel := s.channel[1..], attempts := s.attempts[1..], failedTimes := 0,
                                 delivered := s.delivered + [Answer(s, session,
                                   match s.attempts[0]
                                   case Fetched(rows) => RowsOf(s.backend, rows)
                                   case Failed(e) => Failure(e))]))
  {
    var t := Step(s);
    assert Drain(s) == Drain(t);
  }

  /** The queue's capacity, as created by `mpsc::channel(100)`. */
  const CAPACITY: nat := 100

  /** Why `try_send` refused an operation. */
  datatype SendError = Full | Closed

  /** The display text of tokio's `TrySendError`. */
  function SendErrorText(e: SendError): (s: string)
    ensures s != ""
  {
    match e
    case Full => "no available capacity"
    case Closed => "channel closed"
  }

  /** One connection: its queue, its pool oracle, what it has sent and logged. */
  class ConnectionActor {
    const protocolType: u8
    const owner: u32
    const backend: Backend
    var channel: seq<Op>
    var current: Option<Pending>
    var failedTimes: nat
    var attempts: seq<Attempt>
    var delivered: seq<Delivery<DatabaseResult>>
    var logs: seq<LogLevel>
    var terminated: bool

    function State(): Actor
      reads this
    {
      Actor(protocolType, owner, backend, channel, current, failedTimes, attempts, delivered, logs, terminated)
    }

    /** A fresh connection: an empty queue, nothing sent. */
    constructor (protocolType: u8, owner: u32, backend: Backend, attempts: seq<Attempt>)
      ensures State() == Actor(protocolType, owner, backend, [], None, 0, attempts, [], [], false)
    {
      this.protocolType := protocolType;
      this.owner := owner;
      this.backend := backend;
      this.attempts := attempts;
      channel := [];
      current := None;
      failedTimes := 0;
      delivered := [];
      logs := [];
      terminated := false;
    }

    /**
     * `try_send`: refused with Closed once the actor has ended (its
     * receiver is gone), with Full when 100 operations are waiting;
     * otherwise the operation joins the back of the queue.
     */
    method TrySend(op: Op) returns (r: Result<(), SendError>)
      modifies this
      ensures old(terminated) ==> r == Err(Closed)
      ensures !old(terminated) && |old(channel)| >= CAPACITY ==> r == Err(Full)
      ensures r.Ok? <==> !old(terminated) && |old(channel)| < CAPACITY
      ensures r.Ok? ==> State() == old(State()).(channel := old(channel) + [op])
      ensures r.Err? ==> State() == old(State())
    {
      if terminated {
        return Err(Closed);
      }
      if |channel| >= CAPACITY {
        return Err(Full);
      }
      channel := channel + [op];
      r := Ok(());
    }

    /**
     * `rx.recv()` taking the operation at the head of the queue: `Close`
     * ends the actor (dropping its receiver and what is still queued), a
     * query becomes the current one with a fresh failure streak.
     */
    method Receive()
      requires !terminated && current.None? && |channel| > 0
      modifies this
      ensures State() == Step(old(State()))
    {
      match channel[0] {
        case Close =>
          channel := [];
          terminated := true;
        case Query(session, q) =>
          channel := channel[1..];
          current := Some(Pending(session, q));
          failedTimes := 0;
      }
    }

    /**
     * One run of the current query: rows are sent to its session (session
     * 0 too), with an Info log when they end a failure streak; a failure is
     * sent to a nonzero session, and on session 0 it extends the streak,
     * logged as Error from the streak's second failure on.
     */
    method RunAttempt()
      requires !terminated && current.Some? && |attempts| > 0
      modifies this
      ensures State() == Step(old(State()))
    {
      var p := current.value;
      var a := attempts[0];
      attempts := attempts[1..];
      match a {
        case Fetched(rows) =>
          delivered := delivered + [Delivery(protocolType, owner, p.session, RowsOf(backend, rows))];
          if failedTimes > 0 {
            logs := logs + [Info];
          }
          current := None;
        case Failed(e) =>
          if p.session != 0 {
            delivered := delivered + [Delivery(protocolType, owner, p.session, Failure(e))];
            current := None;
          } else {
            if failedTimes > 0 {
              logs := logs + [Error];
            }
            failedTimes := failedTimes + 1;
          }
      }
    }

    /**
     * `database_handler` as far as it can go: the outer loop receives
     * operations, the inner loop runs the current query until it is
     * answered. It stops at `Close`, at an empty queue, or when the pool
     * oracle has no outcome left for the current query.
     */
    method Run()
      modifies this
      ensures State() == Drain(old(State()))
    {
      while true
        invariant Drain(State()) == Drain(old(State()))
        decreases |channel| + (if current.Some? then 1 else 0)
      {
        if terminated || (current.None? && |channel| == 0) {
          return;
        }
        if current.None? {
          Receive();
          if terminated {
            return;
          }
        }
        ghost var waiting := channel;
        while current.Some? && |attempts| > 0
          invariant !terminated && channel == waiting
          invariant Drain(State()) == Drain(old(State()))
          decreases |attempts|
        {
          RunAttempt();
        }
        if current.Some? {
          return;
        }
      }
    }
  }
}
