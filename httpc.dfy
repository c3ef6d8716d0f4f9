/**
 * The poll-queue HTTP module (`httpc`): a request call validates the
 * headers, takes a session from a process-wide counter and spawns one task
 * that puts exactly one message on the module's channel; the Lua side
 * polls that channel without blocking.
 */
module Httpc {
  import opened Bridge
  import opened HttpShared
  import opened ClientPool

  /**
   * What the remote end does with one request: it answers (version,
   * status, headers, and then the body, whose reading can still fail) or
   * the exchange fails (bad URL, connection, timeout) with reqwest's text.
   */
  datatype Exchange =
    | Responded(version: Version, status: nat, headers: seq<(string, string)>, body: Result<string, string>)
    | Failed(error: string)

  datatype HttpResponse = HttpResponse(version: string, statusCode: int, headers: seq<(string, string)>, body: string)

  /** A channel message: session and the response or the error text. */
  type Message = (i64, Result<HttpResponse, string>)

  /** The request table's fields; None stands for an absent field. */
  datatype Descriptor = Descriptor(
    verb: Option<string>, url: Option<string>, body: Option<string>,
    headers: seq<HeaderSlot>, timeout: Option<u64>, proxy: Option<string>)

  datatype HttpRequest = HttpRequest(
    session: i64, verb: string, url: string, body: string,
    headers: map<string, string>, timeout: u64, proxy: string)

  /** The request of lines 168-176: absent fields become "GET", "", "", 5 and "". */
  function FillRequest(session: i64, d: Descriptor, headers: map<string, string>): HttpRequest {
    HttpRequest(session, d.verb.GetOr("GET"), d.url.GetOr(""), d.body.GetOr(""),
                headers, d.timeout.GetOr(5), d.proxy.GetOr(""))
  }

  /** Each field is read on its own: a present field is kept, an absent one takes its default. */
  lemma FillRequestFields(session: i64, d: Descriptor, headers: map<string, string>)
    ensures var req := FillRequest(session, d, headers);
      && req.session == session && req.headers == headers
      && (d.verb.None? ==> req.verb == "GET") && (d.verb.Some? ==> req.verb == d.verb.value)
      && (d.url.None? ==> req.url == "") && (d.url.Some? ==> req.url == d.url.value)
      && (d.body.None? ==> req.body == "") && (d.body.Some? ==> req.body == d.body.value)
      && (d.timeout.None? ==> req.timeout == 5) && (d.timeout.Some? ==> req.timeout == d.timeout.value)
      && (d.proxy.None? ==> req.proxy == "") && (d.proxy.Some? ==> req.proxy == d.proxy.value)
  {
  }

  /** What the spawned task's `http_request` yields for `req`: the response it sends, or the error it returns. */
  function TaskResult(req: HttpRequest, exchange: Exchange): (r: Result<HttpResponse, string>)
    ensures r.Ok? <==> IsMethodToken(req.verb) && exchange.Responded? && exchange.body.Ok?
    ensures r.Ok? ==> r.value == HttpResponse(VersionToString(exchange.version), exchange.status, exchange.headers, exchange.body.value)
    ensures !IsMethodToken(req.verb) ==> r == Err(INVALID_METHOD)
    ensures IsMethodToken(req.verb) && exchange.Failed? ==> r == Err(exchange.error)
    ensures IsMethodToken(req.verb) && exchange.Responded? && exchange.body.Err? ==> r == Err(exchange.body.error)
  {
    if !IsMethodToken(req.verb) then Err(INVALID_METHOD)
    else match exchange
      case Failed(e) => Err(e)
      case Responded(v, status, hs, body) =>
        if body.Err? then Err(body.error)
        else Ok(HttpResponse(VersionToString(v), status, hs, body.value))
  }

  /** fetch_add on an AtomicI64: wraps from the largest value to the smallest. */
  function NextSession(s: i64): i64 {
    if s == I64_MAX then I64_MIN else s + 1
  }

  /** The counter after `n` allocations from its initial value 1. */
  function CounterAfter(n: nat): i64 {
    if n == 0 then 1 else NextSession(CounterAfter(n - 1))
  }

  /**
   * Allocation `n` (counting from 0) returns n + 1: the sessions handed
   * out are 1, 2, 3, ..., distinct, increasing and never 0, until the
   * counter has been used I64_MAX times.
   */
  lemma {:induction false} CounterAfterValue(n: nat)
    requires n < I64_MAX
    ensures CounterAfter(n) == n + 1
  {
    if n > 0 {
      CounterAfterValue(n - 1);
    }
  }

  lemma SessionsDistinct(m: nat, n: nat)
    requires m < n < I64_MAX
    ensures 0 < CounterAfter(m) < CounterAfter(n)
  {
    CounterAfterValue(m);
    CounterAfterValue(n);
  }

  /** After I64_MAX allocations the counter has wrapped to a negative value. */
  lemma CounterWraps()
    ensures CounterAfter(I64_MAX) == I64_MIN
  {
    CounterAfterValue(I64_MAX - 1);
  }

  function Sessions(q: seq<Message>): (r: seq<i64>)
    ensures |r| == |q| && forall i | 0 <= i < |q| :: r[i] == q[i].0
  {
    if q == [] then [] else [q[0].0] + Sessions(q[1..])
  }

  /** The Lua table `poll` returns with a session. */
  datatype PollTable =
    | ResponseTable(version: string, statusCode: int, body: string, headers: map<string, string>)
    | ErrorTable(statusCode: int, body: string)

  datatype Polled = Ready(session: i64, table: PollTable) | Again | Closed

  /** The std mpsc channel the module keeps: its receiver and its own sender. */
  class Channel {
    var queue: seq<Message>
    /** Senders alive: the channel's own one plus clones held by tasks. */
    var liveSenders: nat
    ghost var sent: seq<i64>
    ghost var received: seq<i64>

    /** Every message ever sent is either received already or still queued, in sending order. */
    ghost predicate Valid()
      reads this
    {
      received + Sessions(queue) == sent && liveSenders >= 1
    }

    constructor ()
      ensures Valid() && queue == [] && sent == [] && received == []
    {
      queue, liveSenders, sent, received := [], 1, [], [];
    }

    method Send(m: Message)
      requires Valid()
      modifies this
      ensures Valid()
      ensures queue == old(queue) + [m] && sent == old(sent) + [m.0]
      ensures received == old(received) && liveSenders == old(liveSenders)
    {
      queue := queue + [m];
      sent := sent + [m.0];
      assert Sessions(queue) == Sessions(old(queue)) + [m.0];
    }

    /**
     * `lua_http_poll`: `try_recv` never blocks. The oldest message comes
     * out first as (session, table); an error becomes status_code -1 with
     * the error text as body. An empty queue answers "Again"; "Closed"
     * would need every sender gone, and the channel holds one itself.
     */
    method Poll() returns (r: Polled)
      requires Valid()
      modifies this
      ensures Valid() && r != Closed
      ensures old(queue) == [] ==> r == Again && queue == old(queue) && received == old(received)
      ensures old(queue) != [] ==>
        && queue == old(queue)[1..]
        && received == old(received) + [old(queue)[0].0]
        && r.Ready? && r.session == old(queue)[0].0
        && r.table == match old(queue)[0].1
             case Ok(resp) => ResponseTable(resp.version, resp.statusCode, resp.body, LastWins(Cells(resp.headers, false)))
             case Err(e) => ErrorTable(-1, e)
      ensures sent == old(sent) && liveSenders == old(liveSenders)
    {
      if queue == [] {
        if liveSenders > 0 {
          return Again;
        }
        return Closed;
      }
      var (session, result) := queue[0];
      queue := queue[1..];
      received := received + [session];
      match result {
        case Ok(response) =>
          var headers := HeaderTable(response.headers, false);
          r := Ready(session, ResponseTable(response.version, response.statusCode, response.body, headers));
        case Err(err) =>
          r := Ready(session, ErrorTable(-1, err));
      }
    }
  }

  predicate StrictlyIncreasing(s: seq<i64>) {
    forall i, j | 0 <= i < j < |s| :: s[i] < s[j]
  }

  /** `HttpContext`: the session counter, the client cache and whether the runtime was built. */
  class HttpContext {
    var session: i64
    const runtimeAvailable: bool
    const clients: ClientCache
    const channel: Channel
    /** Whether the counter has gone past I64_MAX. */
    ghost var wrapped: bool
    /** The requests the spawned tasks performed. */
    ghost var performed: seq<HttpRequest>

    ghost predicate Valid()
      reads this, clients, channel
    {
      && clients.Valid()
      && channel.Valid()
      && (!wrapped ==>
            && 1 <= session
            && StrictlyIncreasing(channel.sent)
            && forall i | 0 <= i < |channel.sent| :: 1 <= channel.sent[i] < session)
    }

    constructor (runtimeBuilt: bool)
      ensures Valid() && fresh(clients) && fresh(channel)
      ensures session == 1 && runtimeAvailable == runtimeBuilt && !wrapped
      ensures clients.clients == map[] && channel.queue == [] && channel.sent == []
    {
      session := 1;
      runtimeAvailable := runtimeBuilt;
      clients := new ClientCache();
      channel := new Channel();
      wrapped := false;
      performed := [];
    }

    /**
     * The spawned task's `http_request`: look the client up, check the
     * method, perform the exchange; only a complete response is sent, and
     * anything else comes back as an error without a message.
     */
    method PerformRequest(req: HttpRequest, exchange: Exchange, proxyParses: bool, buildSucceeds: bool)
      returns (outcome: Result<(), string>)
      requires clients.Valid() && channel.Valid()
      modifies clients, channel
      ensures clients.Valid() && channel.Valid()
      ensures channel.received == old(channel.received) && channel.liveSenders == old(channel.liveSenders)
      ensures TaskResult(req, exchange).Ok? ==>
        outcome.Ok? && channel.queue == old(channel.queue) + [(req.session, TaskResult(req, exchange))]
        && channel.sent == old(channel.sent) + [req.session]
      ensures TaskResult(req, exchange).Err? ==>
        outcome == Err(TaskResult(req, exchange).error)
        && channel.queue == old(channel.queue) && channel.sent == old(channel.sent)
      ensures Fingerprint(req.timeout, req.proxy) in clients.clients
      ensures clients.clients.Keys == old(clients.clients).Keys + {Fingerprint(req.timeout, req.proxy)}
    {
      var client := clients.GetHttpClient(req.timeout, req.proxy, proxyParses, buildSucceeds);
      if !IsMethodToken(req.verb) {
        return Err(INVALID_METHOD);
      }
      match exchange {
        case Failed(e) =>
          return Err(e);
        case Responded(v, status, hs, body) =>
          if body.Err? {
            return Err(body.error);
          }
          channel.Send((req.session, Ok(HttpResponse(VersionToString(v), status, hs, body.value))));
          return Ok(());
      }
    }

    /**
     * `lua_http_request`: a header that does not parse refuses the call
     * before the counter moves; otherwise the counter hands out its value
     * and advances, even when there is no runtime to spawn on; with a
     * runtime the task puts exactly one message for that session on the
     * channel, the response or the error text.
     */
    method Request(d: Descriptor, exchange: Exchange, proxyParses: bool, buildSucceeds: bool)
      returns (r: Reply)
      requires Valid()
      modifies this, clients, channel
      ensures Valid()
      ensures !AllHeadersValid(d.headers) ==>
        && r.Refused? && HeaderRejected(d.headers, r.message)
        && session == old(session) && channel.queue == old(channel.queue)
        && channel.sent == old(channel.sent) && clients.clients == old(clients.clients)
      ensures AllHeadersValid(d.headers) ==>
        && session == NextSession(old(session))
        && (!runtimeAvailable ==>
              r == Refused(NO_RUNTIME) && channel.queue == old(channel.queue)
              && channel.sent == old(channel.sent) && clients.clients == old(clients.clients))
        && (runtimeAvailable ==>
              var req := FillRequest(old(session), d, LastWins(Inserts(d.headers)));
              && r == Dispatched(old(session))
              && performed == old(performed) + [req]
              && channel.queue == old(channel.queue) + [(old(session), TaskResult(req, exchange))]
              && channel.sent == old(channel.sent) + [old(session)])
    {
      var extracted := ExtractHeaders(d.headers);
      if extracted.Err? {
        return Refused(extracted.error);
      }
      var s := session;
      session := NextSession(session);
      if s == I64_MAX {
        wrapped := true;
      }
      var req := FillRequest(s, d, extracted.value);
      if !runtimeAvailable {
        return Refused(NO_RUNTIME);
      }
      performed := performed + [req];
      ghost var sent0, queue0 := channel.sent, channel.queue;
      ghost var result := TaskResult(req, exchange);
      var outcome := PerformRequest(req, exchange, proxyParses, buildSucceeds);
      if outcome.Err? {
        assert result == Err(outcome.error);
        channel.Send((s, Err(outcome.error)));
      }
      assert channel.queue == queue0 + [(s, result)];
      assert channel.sent == sent0 + [s];
      if !wrapped {
        SessionAppended(sent0, s);
      }
      r := Dispatched(s);
    }
  }

  /** Handing out `s` keeps the sent sessions increasing and below the advanced counter. */
  lemma SessionAppended(sent: seq<i64>, s: i64)
    requires 1 <= s < I64_MAX && StrictlyIncreasing(sent)
    requires forall i | 0 <= i < |sent| :: 1 <= sent[i] < s
    ensures StrictlyIncreasing(sent + [s])
    ensures forall i | 0 <= i < |sent + [s]| :: 1 <= (sent + [s])[i] < NextSession(s)
  {
  }
}
