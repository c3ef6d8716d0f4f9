/**
 * The callback HTTP module (`rust_httpc` of lib-lualib): the caller names
 * the session (default 0) and the receiving service; the spawned task
 * answers through the host's send function, the response boxed under the
 * caller's message type, an error as text under PTYPE_ERROR. `decode`
 * later turns the boxed response into a Lua table.
 */
module CallbackHttp {
  import opened Bridge
  import opened HttpShared
  import opened ClientPool

  /** The request table's fields; None stands for an absent field. */
  datatype Descriptor = Descriptor(
    owner: Option<u32>, session: Option<i64>,
    verb: Option<string>, url: Option<string>, body: Option<string>,
    headers: seq<HeaderSlot>, timeout: Option<u64>, proxy: Option<string>)

  datatype HttpRequest = HttpRequest(
    owner: u32, session: i64, verb: string, url: string, body: string,
    headers: map<string, string>, timeout: u64, proxy: string)

  /** A `reqwest::Response` once its head has arrived; the bridge never reads its body. */
  datatype Response = Response(version: Version, status: nat, headers: seq<(string, string)>)

  /** What the remote end does with one request. */
  datatype Exchange = Responded(response: Response) | Failed(error: string)

  /** What crosses the send callback: the boxed response, or the error string. */
  datatype Payload = ResponseHandle(response: Response) | ErrorText(text: string)

  /** The request of lines 94-105: absent fields become 0, 0, "GET", "", "", 5 and "". */
  function FillRequest(d: Descriptor, headers: map<string, string>): HttpRequest {
    HttpRequest(d.owner.GetOr(0), d.session.GetOr(0), d.verb.GetOr("GET"), d.url.GetOr(""),
                d.body.GetOr(""), headers, d.timeout.GetOr(5), d.proxy.GetOr(""))
  }

  /** Each field is read on its own: a present field is kept, an absent one takes its default. */
  lemma FillRequestFields(d: Descriptor, headers: map<string, string>)
    ensures var req := FillRequest(d, headers);
      && req.headers == headers
      && (d.owner.None? ==> req.owner == 0) && (d.owner.Some? ==> req.owner == d.owner.value)
      && (d.session.None? ==> req.session == 0) && (d.session.Some? ==> req.session == d.session.value)
      && (d.verb.None? ==> req.verb == "GET") && (d.verb.Some? ==> req.verb == d.verb.value)
      && (d.url.None? ==> req.url == "") && (d.url.Some? ==> req.url == d.url.value)
      && (d.body.None? ==> req.body == "") && (d.body.Some? ==> req.body == d.body.value)
      && (d.timeout.None? ==> req.timeout == 5) && (d.timeout.Some? ==> req.timeout == d.timeout.value)
      && (d.proxy.None? ==> req.proxy == "") && (d.proxy.Some? ==> req.proxy == d.proxy.value)
  {
  }

  /**
   * The one delivery a spawned request task makes: the response under the
   * caller's message type when the method parses and the exchange
   * completes, the error text under PTYPE_ERROR otherwise; both addressed
   * to the request's owner and session.
   */
  function TaskDelivery(req: HttpRequest, protocolType: u8, exchange: Exchange): (d: Delivery<Payload>)
    ensures d.owner == req.owner && d.session == req.session
    ensures d.payload.ResponseHandle? <==> IsMethodToken(req.verb) && exchange.Responded?
    ensures d.payload.ResponseHandle? ==> d.ptype == protocolType && d.payload.response == exchange.response
    ensures d.payload.ErrorText? ==> d.ptype == PTYPE_ERROR
    ensures d.payload.ErrorText? && !IsMethodToken(req.verb) ==> d.payload.text == INVALID_METHOD
    ensures d.payload.ErrorText? && IsMethodToken(req.verb) ==> d.payload.text == exchange.error
  {
    if !IsMethodToken(req.verb) then Delivery(PTYPE_ERROR, req.owner, req.session, ErrorText(INVALID_METHOD))
    else match exchange
      case Responded(resp) => Delivery(protocolType, req.owner, req.session, ResponseHandle(resp))
      case Failed(e) => Delivery(PTYPE_ERROR, req.owner, req.session, ErrorText(e))
  }

  /** The table `decode` builds from a boxed response: version, status_code, headers. */
  datatype ResponseTable = ResponseTable(version: string, statusCode: nat, headers: map<string, string>)

  /**
   * `decode`: the version's name, the status, and the headers with names
   * lower-cased and values trimmed (a value that is not visible ASCII
   * becomes ""). The body is not part of the table.
   */
  method Decode(response: Response) returns (t: ResponseTable)
    ensures t.version == VersionToString(response.version) && t.statusCode == response.status
    ensures t.headers == LastWins(Cells(response.headers, true))
  {
    var headers := HeaderTable(response.headers, true);
    t := ResponseTable(VersionToString(response.version), response.status, headers);
  }

  /** The module's view of the process-wide context and of the host's send function. */
  class CallbackBridge {
    const runtimeAvailable: bool
    const clients: ClientCache
    /** Every call of the send function, in order. */
    var sent: seq<Delivery<Payload>>

    constructor (runtimeBuilt: bool, cache: ClientCache)
      ensures runtimeAvailable == runtimeBuilt && clients == cache && sent == []
    {
      runtimeAvailable := runtimeBuilt;
      clients := cache;
      sent := [];
    }

    /**
     * The spawned task's `http_request` (lines 35-51): client lookup,
     * method check, exchange; only a response is sent from here, anything
     * else is returned as an error.
     */
    method PerformRequest(req: HttpRequest, protocolType: u8, exchange: Exchange, proxyParses: bool, buildSucceeds: bool)
      returns (outcome: Result<(), string>)
      requires clients.Valid()
      modifies this, clients
      ensures clients.Valid()
      ensures outcome.Ok? <==> IsMethodToken(req.verb) && exchange.Responded?
      ensures outcome.Ok? ==> sent == old(sent) + [TaskDelivery(req, protocolType, exchange)]
      ensures outcome.Err? ==> sent == old(sent) && TaskDelivery(req, protocolType, exchange).payload == ErrorText(outcome.error)
      ensures clients.clients.Keys == old(clients.clients).Keys + {Fingerprint(req.timeout, req.proxy)}
    {
      var client := clients.GetHttpClient(req.timeout, req.proxy, proxyParses, buildSucceeds);
      if !IsMethodToken(req.verb) {
        return Err(INVALID_METHOD);
      }
      match exchange {
        case Failed(e) =>
          return Err(e);
        case Responded(response) =>
          sent := sent + [Delivery(protocolType, req.owner, req.session, ResponseHandle(response))];
          return Ok(());
      }
    }

    /**
     * `lua_http_request`: a header that does not parse, or a missing
     * runtime, refuses the call with nothing spawned; otherwise the task
     * runs and makes exactly one delivery, and the caller gets back the
     * session it supplied (0 when it gave none).
     */
    method Request(d: Descriptor, protocolType: u8, exchange: Exchange, proxyParses: bool, buildSucceeds: bool)
      returns (r: Reply)
      requires clients.Valid()
      modifies this, clients
      ensures clients.Valid()
      ensures !AllHeadersValid(d.headers) ==>
        r.Refused? && HeaderRejected(d.headers, r.message) && sent == old(sent)
        && clients.clients == old(clients.clients)
      ensures AllHeadersValid(d.headers) && !runtimeAvailable ==>
        r == Refused(NO_RUNTIME) && sent == old(sent) && clients.clients == old(clients.clients)
      ensures AllHeadersValid(d.headers) && runtimeAvailable ==>
        var req := FillRequest(d, LastWins(Inserts(d.headers)));
        && r == Dispatched(d.session.GetOr(0))
        && sent == old(sent) + [TaskDelivery(req, protocolType, exchange)]
    {
      var extracted := ExtractHeaders(d.headers);
      if extracted.Err? {
        return Refused(extracted.error);
      }
      var session := d.session.GetOr(0);
      var req := FillRequest(d, extracted.value);
      if !runtimeAvailable {
        return Refused(NO_RUNTIME);
      }
      var outcome := PerformRequest(req, protocolType, exchange, proxyParses, buildSucceeds);
      if outcome.Err? {
        sent := sent + [Delivery(PTYPE_ERROR, req.owner, req.session, ErrorText(outcome.error))];
      }
      r := Dispatched(session);
    }
  }
}
