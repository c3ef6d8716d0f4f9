/**
 * The object-storage bridge (`rust_opendal`): `new` builds an operator
 * for a scheme from a configuration table, and `operators` checks its
 * arguments, picks one of eight operations by name and spawns it; the
 * spawned task answers through the host's send function with the
 * operation's payload, or with the error text under message type 4.
 * The storage service itself is an oracle.
 */
module Storage {
  import opened Bridge

  /** One entry of the configuration table; a key or value that is not a string reads as "". */
  type ConfigSlot = (Option<string>, Option<string>)

  /** The (key, value) pairs the loop of `lua_to_schema` inserts, in table order. */
  function ConfigPairs(slots: seq<ConfigSlot>): seq<(string, string)> {
    seq(|slots|, i requires 0 <= i < |slots| => (slots[i].0.GetOr(""), slots[i].1.GetOr("")))
  }

  /**
   * The loop of `lua_to_schema`: every entry is inserted into the map in
   * table order, a later entry replacing an earlier one with the same key.
   */
  method ConfigMap(slots: seq<ConfigSlot>) returns (m: map<string, string>)
    ensures m == LastWins(ConfigPairs(slots))
  {
    m := map[];
    for i := 0 to |slots|
      invariant m == LastWins(ConfigPairs(slots[..i]))
    {
      var key := slots[i].0.GetOr("");
      var value := slots[i].1.GetOr("");
      assert ConfigPairs(slots[..i + 1]) == ConfigPairs(slots[..i]) + [(key, value)];
      LastWinsSnoc(ConfigPairs(slots[..i]), (key, value));
      m := m[key := value];
    }
    assert slots[..|slots|] == slots;
  }

  /** The configuration holds exactly the table's keys, each with the value of its last entry. */
  lemma ConfigMapContents(slots: seq<ConfigSlot>, i: nat)
    requires i < |slots|
    requires forall j :: i < j < |slots| ==> slots[j].0.GetOr("") != slots[i].0.GetOr("")
    ensures LastWins(ConfigPairs(slots)).Keys == set j | 0 <= j < |slots| :: slots[j].0.GetOr("")
    ensures LastWins(ConfigPairs(slots))[slots[i].0.GetOr("")] == slots[i].1.GetOr("")
  {
    var pairs := ConfigPairs(slots);
    assert |pairs| == |slots| && forall j | 0 <= j < |slots| :: pairs[j].0 == slots[j].0.GetOr("");
    LastWinsKeys(pairs);
    assert (set j | 0 <= j < |pairs| :: pairs[j].0) == set j | 0 <= j < |slots| :: slots[j].0.GetOr("");
    LastWinsAt(pairs, i);
  }

  /** An operator: its scheme and its configuration. */
  datatype Operator = Operator(scheme: string, config: map<string, string>)

  const SCHEMA_EMPTY: string := "schema is empty"

  /**
   * `new`: a second argument that is not a table raises first; an empty
   * scheme name is refused before the configuration is looked at;
   * otherwise the configuration is read and the scheme parse and the
   * operator build (oracles, with their error texts) decide. A refusal
   * returns `(false, message)`.
   */
  method OperatorNew(schema: string, configIsTable: bool, slots: seq<ConfigSlot>,
                     parsed: Result<(), string>, built: Result<(), string>)
    returns (r: Result<Operator, Outcome>)
    ensures !configIsTable ==> r == Err(Raised(ArgumentType(2, "table")))
    ensures configIsTable && schema == "" ==> r == Err(Returned(Refused(SCHEMA_EMPTY)))
    ensures configIsTable && schema != "" && parsed.Err? ==> r == Err(Returned(Refused(parsed.error)))
    ensures configIsTable && schema != "" && parsed.Ok? && built.Err? ==> r == Err(Returned(Refused(built.error)))
    ensures r.Ok? <==> configIsTable && schema != "" && parsed.Ok? && built.Ok?
    ensures r.Ok? ==> r.value == Operator(schema, LastWins(ConfigPairs(slots)))
  {
    if !configIsTable {
      return Err(Raised(ArgumentType(2, "table")));
    }
    if schema == "" {
      return Err(Returned(Refused(SCHEMA_EMPTY)));
    }
    var config := ConfigMap(slots);
    if parsed.Err? {
      return Err(Returned(Refused(parsed.error)));
    }
    if built.Err? {
      return Err(Returned(Refused(built.error)));
    }
    r := Ok(Operator(schema, config));
  }

  /** The eight operations `operators` knows, with the extra argument `write` and `rename` take. */
  datatype StorageOp = Read | Write(data: string) | Delete | Exists | CreateDir | Rename(to: string) | Stat | List

  /** The operation a name selects; `extra` is the eighth argument. */
  function OpNamed(name: string, extra: string): (op: Option<StorageOp>)
    ensures op.Some? <==> name in {"read", "write", "delete", "exists", "create_dir", "rename", "stat", "list"}
    ensures op == Some(Write(extra)) <==> name == "write"
    ensures op == Some(Rename(extra)) <==> name == "rename"
  {
    if name == "read" then Some(Read)
    else if name == "write" then Some(Write(extra))
    else if name == "delete" then Some(Delete)
    else if name == "exists" then Some(Exists)
    else if name == "create_dir" then Some(CreateDir)
    else if name == "rename" then Some(Rename(extra))
    else if name == "stat" then Some(Stat)
    else if name == "list" then Some(List)
    else None
  }

  /** What the first argument is: not a userdata, a userdata that is not an operator, or an operator. */
  datatype Handle = NotUserdata | ForeignUserdata | OperatorHandle(op: Operator)

  /** The arguments of `operators`, in order. */
  datatype Call = Call(
    handle: Handle, protocolType: u8, callbackPresent: bool, session: i64, owner: u32,
    name: string, path: string, extra: string)

  /** A Lua error raised by `operators`: a wrong argument type, or a message. */
  datatype Raise = ArgumentType(position: nat, expected: string) | Message(text: string)

  /** What a call of `operators` ends in: a raised error, or its return values. */
  datatype Outcome = Raised(error: Raise) | Returned(reply: Reply)

  const INVALID_OPERATOR: string := "Invalid operator pointer"
  const INVALID_CALLBACK: string := "Invalid send_message function pointer"
  const PATH_EMPTY: string := "path is empty"
  const INVALID_NAME: string := "Invalid operator name"
  const TO_EMPTY: string := "to is empty"

  /**
   * The checks of `operators`, in the order it makes them: the operation
   * to spawn, or how the call ends without spawning anything.
   */
  function Checked(c: Call, runtimeAvailable: bool): (r: Result<StorageOp, Outcome>)
    ensures c.handle.NotUserdata? ==> r == Err(Raised(ArgumentType(1, "userdata")))
    ensures c.handle.ForeignUserdata? ==> r == Err(Raised(Message(INVALID_OPERATOR)))
    ensures c.handle.OperatorHandle? && !c.callbackPresent ==> r == Err(Raised(Message(INVALID_CALLBACK)))
    ensures c.handle.OperatorHandle? && c.callbackPresent && !runtimeAvailable ==> r == Err(Returned(Refused(NO_RUNTIME)))
    ensures c.handle.OperatorHandle? && c.callbackPresent && runtimeAvailable && c.path == "" ==>
      r == Err(Raised(Message(PATH_EMPTY)))
    ensures r.Ok? <==>
      && c.handle.OperatorHandle? && c.callbackPresent && runtimeAvailable && c.path != ""
      && OpNamed(c.name, c.extra).Some? && (c.name == "rename" ==> c.extra != "")
    ensures r.Ok? ==> r.value == OpNamed(c.name, c.extra).value
    ensures r == Err(Raised(Message(TO_EMPTY))) <==>
      c.handle.OperatorHandle? && c.callbackPresent && runtimeAvailable && c.path != "" && c.name == "rename" && c.extra == ""
    ensures r.Err? && r.error == Returned(Refused(INVALID_NAME)) <==>
      c.handle.OperatorHandle? && c.callbackPresent && runtimeAvailable && c.path != "" && OpNamed(c.name, c.extra).None?
  {
    match c.handle
    case NotUserdata => Err(Raised(ArgumentType(1, "userdata")))
    case ForeignUserdata => Err(Raised(Message(INVALID_OPERATOR)))
    case OperatorHandle(_) =>
      if !c.callbackPresent then Err(Raised(Message(INVALID_CALLBACK)))
      else if !runtimeAvailable then Err(Returned(Refused(NO_RUNTIME)))
      else if c.path == "" then Err(Raised(Message(PATH_EMPTY)))
      else match OpNamed(c.name, c.extra)
        case None => Err(Returned(Refused(INVALID_NAME)))
        case Some(op) =>
          if op.Rename? && op.to == "" then Err(Raised(Message(TO_EMPTY))) else Ok(op)
  }

  /** What the storage service returns for an operation that succeeds. */
  datatype OpValue = Buffer(data: string) | Existence(present: bool) | Done | Metadata(json: string) | Listing(json: string)

  /** The value each operation returns: bytes, a flag, nothing, or the rendered JSON of a stat or a listing. */
  predicate Returns(op: StorageOp, v: OpValue) {
    match op
    case Read => v.Buffer?
    case Exists => v.Existence?
    case Stat => v.Metadata?
    case List => v.Listing?
    case _ => v.Done?
  }

  /** The bytes a successful operation sends. */
  function Payload(v: OpValue): string {
    match v
    case Buffer(data) => data
    case Existence(present) => if present then "true" else "false"
    case Done => ""
    case Metadata(json) => json
    case Listing(json) => json
  }

  /** Payload shapes: read sends the data, exists "true" or "false", the four mutations nothing. */
  lemma PayloadShapes(op: StorageOp, v: OpValue)
    requires Returns(op, v)
    ensures op.Read? ==> Payload(v) == v.data
    ensures op.Exists? ==> (Payload(v) == "true" <==> v.present) && (Payload(v) == "false" <==> !v.present)
    ensures op.Write? || op.Delete? || op.CreateDir? || op.Rename? ==> Payload(v) == ""
    ensures op.Stat? || op.List? ==> Payload(v) == v.json
  {
  }

  /**
   * `handle_result`: a success goes out under the caller's message type
   * with its payload, a failure under message type 4 with the error's
   * text; both to the caller's owner and session.
   */
  function HandleResult(protocolType: u8, owner: u32, session: i64, result: Result<OpValue, string>): (d: Delivery<string>)
    ensures d.owner == owner && d.session == session
    ensures result.Ok? ==> d.ptype == protocolType && d.payload == Payload(result.value)
    ensures result.Err? ==> d.ptype == PTYPE_ERROR && d.payload == result.error
  {
    match result
    case Ok(v) => Delivery(protocolType, owner, session, Payload(v))
    case Err(e) => Delivery(PTYPE_ERROR, owner, session, e)
  }

  /** The module's view of the runtime and of the host's send function. */
  class StorageBridge {
    const runtimeAvailable: bool
    /** Every call of the send function, in order. */
    var sent: seq<Delivery<string>>

    constructor (runtimeBuilt: bool)
      ensures runtimeAvailable == runtimeBuilt && sent == []
    {
      runtimeAvailable := runtimeBuilt;
      sent := [];
    }

    /**
     * `operators`: when every check passes the operation is spawned, its
     * task makes exactly one delivery, and the caller gets its own session
     * back; otherwise nothing is sent and the call raises or returns
     * `(false, message)` as the checks say.
     */
    method Operators(c: Call, result: Result<OpValue, string>) returns (o: Outcome)
      requires Checked(c, runtimeAvailable).Ok? && result.Ok? ==> Returns(Checked(c, runtimeAvailable).value, result.value)
      modifies this
      ensures Checked(c, runtimeAvailable).Err? ==> o == Checked(c, runtimeAvailable).error && sent == old(sent)
      ensures Checked(c, runtimeAvailable).Ok? ==>
        o == Returned(Dispatched(c.session))
        && sent == old(sent) + [HandleResult(c.protocolType, c.owner, c.session, result)]
    {
      var checked := Checked(c, runtimeAvailable);
      if checked.Err? {
        return checked.error;
      }
      sent := sent + [HandleResult(c.protocolType, c.owner, c.session, result)];
      o := Returned(Dispatched(c.session));
    }
  }
}
