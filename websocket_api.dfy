/**
 * The WebSocket endpoints: `/ws/analysis/{client_id}`, whose receive loop dispatches each
 * client message on its `type`, and the admin `/ws/broadcast`. Decoding the text
 * (`json.loads`) is given: `None` stands for text that is not valid JSON. Each handler
 * is defined on the manager's `Registry` value first; the methods run the handlers on
 * the shared `ConnectionManager` and are proved against those definitions.
 */
module WebSocketApi {
  import opened Wrappers
  import opened JsonValue
  import opened Text
  import opened Seqs
  import opened Messages
  import opened WebSocketManager

  // ---------------------------------------------------------------------------
  // handle_websocket_message

  /** What a client message asks for, as the dispatcher tells it apart. */
  datatype Command =
    | Subscribe(analysisId: string)
    | SubscribeMissing
    | Unsubscribe(analysisId: string)
    | UnsubscribeMissing
    | Ping(timestamp: Json)
    | Status
    | Unknown(messageType: Json)
    | Raises   // the handler raises: the message is not an object, or its id cannot be a key

  /**
   * The dispatch of `handle_websocket_message`: on `message.get("type")`, then on whether
   * `analysis_id` is truthy. An id that is a list or an object cannot be hashed, so using
   * it as a key raises.
   */
  function Classify(m: Json): (cmd: Command)
    ensures cmd.Subscribe? || cmd.Unsubscribe? ==> cmd.analysisId != ""
    ensures !m.JObj? ==> cmd == Raises
  {
    if !m.JObj? then Raises
    else
      var t := Get(m.fields, "type");
      var id := Get(m.fields, "analysis_id");
      if t == JStr("subscribe") then SubscribeCommand(id)
      else if t == JStr("unsubscribe") then UnsubscribeCommand(id)
      else if t == JStr("ping") then Ping(Get(m.fields, "timestamp"))
      else if t == JStr("status") then Status
      else Unknown(t)
  }

  /** `subscribe`: a falsy `analysis_id` is missing; a list or an object raises when used as a key. */
  function SubscribeCommand(id: Json): Command
  {
    if !Truthy(id) then SubscribeMissing else if id.JStr? then Subscribe(id.s) else Raises
  }

  /** `unsubscribe`, the same way. */
  function UnsubscribeCommand(id: Json): Command
  {
    if !Truthy(id) then UnsubscribeMissing else if id.JStr? then Unsubscribe(id.s) else Raises
  }

  /** The change a command makes to the subscriptions before any reply is sent. */
  function Effect(r: Registry, c: string, cmd: Command): Registry
  {
    match cmd
    case Subscribe(a) => Subscribed(r, c, a)
    case Unsubscribe(a) => Unsubscribed(r, c, a)
    case _ => r
  }

  /** The one message sent back to the sender, if any; `stats` is what `get_connection_stats()` reports. */
  function Reply(cmd: Command, c: string, stats: ConnectionStats): Option<Message>
  {
    match cmd
    case Subscribe(a) => Some(SubscriptionConfirmed(a, None))
    case SubscribeMissing => Some(Error(AnalysisIdRequired))
    case Unsubscribe(a) => Some(UnsubscriptionConfirmed(a))
    case UnsubscribeMissing => None
    case Ping(t) => Some(Pong(t))
    case Status => Some(StatusResponse(stats, c))
    case Unknown(t) => Some(Error(UnknownType(t)))
    case Raises => Some(Error(ProcessingFailed))
  }

  /** The registry after client `c`'s command: its effect, then the reply through `send_personal_message`. */
  function Handled(r: Registry, c: string, cmd: Command, failing: set<string>): Registry
    requires WellFormed(r)
  {
    var r1 := Effect(r, c, cmd);
    var reply := Reply(cmd, c, Stats(r));
    if reply.None? then r1 else SentTo(r1, [c], failing, reply.value)
  }

  /** What a send to the sender alone writes: one delivery when it is connected and its send succeeds. */
  function ToSender(r: Registry, c: string, failing: set<string>, msg: Message): seq<Delivery>
  {
    if c in r.connections && c !in failing then [Delivery(c, r.connections[c], msg)] else []
  }

  lemma EffectWellFormed(r: Registry, c: string, cmd: Command)
    requires WellFormed(r)
    ensures WellFormed(Effect(r, c, cmd))
    ensures Effect(r, c, cmd).connections == r.connections && Effect(r, c, cmd).outbox == r.outbox
    ensures Effect(r, c, cmd).order == r.order
  {
    match cmd
    case Subscribe(a) => SubscribedWellFormed(r, c, a);
    case Unsubscribe(a) => UnsubscribedWellFormed(r, c, a);
    case _ =>
  }

  /**
   * Every client message is answered to its sender only: at most one delivery, over the
   * sender's own socket. Unless that send fails, the connections stay as they were and
   * the subscriptions change only by the command's effect.
   */
  lemma HandledShape(r: Registry, c: string, cmd: Command, failing: set<string>)
    requires WellFormed(r)
    ensures WellFormed(Handled(r, c, cmd, failing))
    ensures var r' := Handled(r, c, cmd, failing);
      var reply := Reply(cmd, c, Stats(r));
      && r'.outbox == r.outbox + (if reply.Some? then ToSender(r, c, failing, reply.value) else [])
      && (c !in failing || c !in r.connections || reply.None? ==>
            r'.connections == r.connections && r'.order == r.order &&
            r'.subscriptions == Effect(r, c, cmd).subscriptions)
  {
    EffectWellFormed(r, c, cmd);
    ReplyShape(r, Effect(r, c, cmd), c, Reply(cmd, c, Stats(r)), failing);
  }

  /** The reply step of `Handled`, on a registry `r1` that differs from `r` at most in its subscriptions. */
  lemma ReplyShape(r: Registry, r1: Registry, c: string, reply: Option<Message>, failing: set<string>)
    requires WellFormed(r1) && r1.connections == r.connections && r1.outbox == r.outbox
    ensures var r' := if reply.None? then r1 else SentTo(r1, [c], failing, reply.value);
      && WellFormed(r')
      && r'.outbox == r.outbox + (if reply.Some? then ToSender(r, c, failing, reply.value) else [])
      && (c !in failing || c !in r.connections || reply.None? ==>
            r'.connections == r1.connections && r'.order == r1.order && r'.subscriptions == r1.subscriptions)
  {
    if reply.Some? {
      ReplySent(r1, c, failing, reply.value);
    }
  }

  /** A send to one client adds at most that client's delivery; only a failed send changes more. */
  lemma ReplySent(r: Registry, c: string, failing: set<string>, msg: Message)
    requires WellFormed(r)
    ensures WellFormed(SentTo(r, [c], failing, msg))
    ensures SentTo(r, [c], failing, msg).outbox == r.outbox + ToSender(r, c, failing, msg)
    ensures c !in failing || c !in r.connections ==>
      SentTo(r, [c], failing, msg) == r.(outbox := r.outbox + ToSender(r, c, failing, msg))
  {
    SentToOne(r, c, failing, msg);
    SentToWellFormed(r, [c], failing, msg);
    if c in r.connections && c in failing {
      DisconnectOne(r, c);
    }
  }

  /** A reply whose send fails disconnects the sender, which then sits in no subscription list. */
  lemma FailedReplyDisconnects(r: Registry, c: string, cmd: Command, failing: set<string>)
    requires WellFormed(r) && c in failing && c in r.connections && Reply(cmd, c, Stats(r)).Some?
    ensures var r' := Handled(r, c, cmd, failing);
      c !in r'.connections && forall a | a in r'.subscriptions :: c !in r'.subscriptions[a]
  {
    var r1 := Effect(r, c, cmd);
    EffectWellFormed(r, c, cmd);
    SentToOne(r1, c, failing, Reply(cmd, c, Stats(r)).value);
    DisconnectCleansUp(r1, {c});
  }

  /**
   * `subscribe` with an analysis id: unless the confirmation's send fails, the sender
   * follows the analysis and is sent `subscription_confirmed`; with no id, an error
   * reply and no change to any subscription.
   */
  lemma SubscribeReplies(r: Registry, c: string, m: Json, failing: set<string>)
    requires WellFormed(r) && m.JObj? && Get(m.fields, "type") == JStr("subscribe")
    requires c !in failing
    ensures var r' := Handled(r, c, Classify(m), failing);
      var id := Get(m.fields, "analysis_id");
      && (id.JStr? && id.s != "" ==>
            && id.s in r'.subscriptions && c in r'.subscriptions[id.s]
            && r'.outbox == r.outbox + ToSender(r, c, failing, SubscriptionConfirmed(id.s, None)))
      && (!Truthy(id) ==>
            r' == r.(outbox := r.outbox + ToSender(r, c, failing, Error(AnalysisIdRequired))))
  {
    HandledShape(r, c, Classify(m), failing);
    var id := Get(m.fields, "analysis_id");
    if id.JStr? && id.s != "" {
      SubscribeOnce(r, c, id.s);
    }
  }

  /**
   * `unsubscribe` with an analysis id: the sender leaves that list and is sent
   * `unsubscription_confirmed`; with no id nothing changes and nothing is sent.
   */
  lemma UnsubscribeReplies(r: Registry, c: string, m: Json, failing: set<string>)
    requires WellFormed(r) && m.JObj? && Get(m.fields, "type") == JStr("unsubscribe")
    requires c !in failing
    ensures var r' := Handled(r, c, Classify(m), failing);
      var id := Get(m.fields, "analysis_id");
      && (id.JStr? && id.s != "" ==>
            && (id.s in r'.subscriptions ==> c !in r'.subscriptions[id.s])
            && r'.subscriptions.Keys == r.subscriptions.Keys
            && r'.outbox == r.outbox + ToSender(r, c, failing, UnsubscriptionConfirmed(id.s)))
      && (!Truthy(id) ==> r' == r)
  {
    HandledShape(r, c, Classify(m), failing);
    var id := Get(m.fields, "analysis_id");
    if id.JStr? && id.s != "" {
      UnsubscribeRemovesOnly(r, c, id.s);
    }
  }

  /**
   * `ping` is answered with a `pong` echoing the client's `timestamp`, `status` with the
   * current statistics and the client's id, anything else with an "Unknown message type"
   * error naming the type; none of them changes a connection or a subscription.
   */
  lemma QueriesOnlyReply(r: Registry, c: string, m: Json, failing: set<string>)
    requires WellFormed(r) && m.JObj? && c !in failing
    requires Get(m.fields, "type") != JStr("subscribe") && Get(m.fields, "type") != JStr("unsubscribe")
    ensures var r' := Handled(r, c, Classify(m), failing);
      var t := Get(m.fields, "type");
      var reply :=
        if t == JStr("ping") then Pong(Get(m.fields, "timestamp"))
        else if t == JStr("status") then StatusResponse(Stats(r), c)
        else Error(UnknownType(t));
      r' == r.(outbox := r.outbox + ToSender(r, c, failing, reply))
  {
    var t := Get(m.fields, "type");
    var cmd := Classify(m);
    var reply :=
      if t == JStr("ping") then Pong(Get(m.fields, "timestamp"))
      else if t == JStr("status") then StatusResponse(Stats(r), c)
      else Error(UnknownType(t));
    assert Effect(r, c, cmd) == r && Reply(cmd, c, Stats(r)) == Some(reply);
    SentToOne(r, c, failing, reply);
  }

  /** Text that does not decode is answered with "Invalid JSON format"; a decoded message goes to the dispatcher. */
  function Received(r: Registry, c: string, parsed: Option<Json>, failing: set<string>): Registry
    requires WellFormed(r)
  {
    if parsed.None? then SentTo(r, [c], failing, Error(InvalidJson))
    else Handled(r, c, Classify(parsed.value), failing)
  }

  lemma ReceivedWellFormed(r: Registry, c: string, parsed: Option<Json>, failing: set<string>)
    requires WellFormed(r)
    ensures WellFormed(Received(r, c, parsed, failing))
  {
    if parsed.None? {
      SentToWellFormed(r, [c], failing, Error(InvalidJson));
    } else {
      HandledShape(r, c, Classify(parsed.value), failing);
    }
  }

  /** Invalid JSON is answered with an error to the sender and changes nothing else. */
  lemma InvalidJsonReply(r: Registry, c: string, failing: set<string>)
    requires WellFormed(r) && c !in failing
    ensures Received(r, c, None, failing) == r.(outbox := r.outbox + ToSender(r, c, failing, Error(InvalidJson)))
  {
    SentToOne(r, c, failing, Error(InvalidJson));
  }

  /** The receive loop: the messages of a session, one after another. */
  function ReceivedAll(r: Registry, c: string, inputs: seq<Option<Json>>, failing: set<string>): (r': Registry)
    requires WellFormed(r)
    ensures WellFormed(r')
  {
    if inputs == [] then r
    else
      var before := ReceivedAll(r, c, inputs[..|inputs| - 1], failing);
      ReceivedWellFormed(before, c, inputs[|inputs| - 1], failing);
      Received(before, c, inputs[|inputs| - 1], failing)
  }

  /**
   * The loop goes on after every message, a bad one included: a session is its first
   * part followed by the rest, started from where the first part left the registry.
   */
  lemma {:induction false} ReceiveLoopContinues(r: Registry, c: string, xs: seq<Option<Json>>, ys: seq<Option<Json>>,
                                                failing: set<string>)
    requires WellFormed(r)
    ensures ReceivedAll(r, c, xs + ys, failing) == ReceivedAll(ReceivedAll(r, c, xs, failing), c, ys, failing)
  {
    if ys == [] {
      assert xs + ys == xs;
    } else {
      var ys' := ys[..|ys| - 1];
      ReceiveLoopContinues(r, c, xs, ys', failing);
      assert (xs + ys)[..|xs + ys| - 1] == xs + ys';
      assert (xs + ys)[|xs + ys| - 1] == ys[|ys| - 1];
    }
  }

  // ---------------------------------------------------------------------------
  // websocket_analysis_endpoint

  /** The start of a session: register the client, then subscribe it when the query names an analysis. */
  function Opened(r: Registry, ws: Socket, c: string, analysisId: Option<string>, failing: set<string>): Registry
  {
    var r1 := Connected(r, ws, c);
    if analysisId.None? || analysisId.value == "" then r1
    else SentTo(Subscribed(r1, c, analysisId.value), [c], failing,
                SubscriptionConfirmed(analysisId.value, Some(c)))
  }

  /**
   * Opening a session with an analysis id registers the client over its socket,
   * subscribes it, and sends it one `subscription_confirmed` naming the analysis and
   * the client; without an id the client is only registered.
   */
  lemma OpenSubscribes(r: Registry, ws: Socket, c: string, analysisId: Option<string>, failing: set<string>)
    requires WellFormed(r) && c !in failing
    ensures WellFormed(Opened(r, ws, c, analysisId, failing))
    ensures var r' := Opened(r, ws, c, analysisId, failing);
      && c in r'.connections && r'.connections[c] == ws
      && (analysisId.Some? && analysisId.value != "" ==>
            && analysisId.value in r'.subscriptions && c in r'.subscriptions[analysisId.value]
            && r'.outbox == r.outbox + [Delivery(c, ws, SubscriptionConfirmed(analysisId.value, Some(c)))])
      && (analysisId.None? || analysisId.value == "" ==> r'.outbox == r.outbox && r'.subscriptions == r.subscriptions)
  {
    var r1 := Connected(r, ws, c);
    ConnectedWellFormed(r, ws, c);
    ConnectReplaces(r, ws, c);
    if analysisId.Some? && analysisId.value != "" {
      var a := analysisId.value;
      var msg := SubscriptionConfirmed(a, Some(c));
      var r2 := Subscribed(r1, c, a);
      SubscribedWellFormed(r1, c, a);
      SubscribeOnce(r1, c, a);
      assert c in r2.connections && c !in failing && r2.connections[c] == ws;
      SentToOne(r2, c, failing, msg);
      assert Opened(r, ws, c, analysisId, failing) == r2.(outbox := r2.outbox + [Delivery(c, ws, msg)]);
    }
  }


  /** A whole session: opened, every received text handled, then the client disconnects. */
  function Session(r: Registry, ws: Socket, c: string, analysisId: Option<string>, inputs: seq<Option<Json>>,
                   failing: set<string>): Registry
    requires WellFormed(r)
  {
    ConnectedWellFormed(r, ws, c);
    OpenedWellFormed(r, ws, c, analysisId, failing);
    DisconnectedAll(ReceivedAll(Opened(r, ws, c, analysisId, failing), c, inputs, failing), {c})
  }

  lemma OpenedWellFormed(r: Registry, ws: Socket, c: string, analysisId: Option<string>, failing: set<string>)
    requires WellFormed(r)
    ensures WellFormed(Opened(r, ws, c, analysisId, failing))
  {
    var r1 := Connected(r, ws, c);
    ConnectedWellFormed(r, ws, c);
    if analysisId.Some? && analysisId.value != "" {
      SubscribedWellFormed(r1, c, analysisId.value);
      SentToWellFormed(Subscribed(r1, c, analysisId.value), [c], failing,
                       SubscriptionConfirmed(analysisId.value, Some(c)));
    }
  }

  /** When the session ends the client is gone: no connection and no subscription are left behind. */
  lemma SessionLeavesNothing(r: Registry, ws: Socket, c: string, analysisId: Option<string>, inputs: seq<Option<Json>>,
                             failing: set<string>)
    requires WellFormed(r)
    ensures var r' := Session(r, ws, c, analysisId, inputs, failing);
      && c !in r'.connections
      && forall a | a in r'.subscriptions :: c !in r'.subscriptions[a]
  {
    OpenedWellFormed(r, ws, c, analysisId, failing);
    DisconnectCleansUp(ReceivedAll(Opened(r, ws, c, analysisId, failing), c, inputs, failing), {c});
  }

  /** `handle_websocket_message` on the shared manager. */
  method HandleMessage(mgr: ConnectionManager, c: string, m: Json, failing: set<string>)
    requires mgr.Valid()
    modifies mgr
    ensures mgr.Valid()
    ensures mgr.State() == Handled(old(mgr.State()), c, Classify(m), failing)
  {
    if !m.JObj? {
      // `message.get` on a list, a string or a number raises
      mgr.SendPersonalMessage(Error(ProcessingFailed), c, failing);
      return;
    }
    var t := Get(m.fields, "type");
    if t == JStr("subscribe") {
      HandleSubscribe(mgr, c, Get(m.fields, "analysis_id"), failing);
    } else if t == JStr("unsubscribe") {
      HandleUnsubscribe(mgr, c, Get(m.fields, "analysis_id"), failing);
    } else if t == JStr("ping") {
      mgr.SendPersonalMessage(Pong(Get(m.fields, "timestamp")), c, failing);
    } else if t == JStr("status") {
      var stats := mgr.GetConnectionStats();
      mgr.SendPersonalMessage(StatusResponse(stats, c), c, failing);
    } else {
      mgr.SendPersonalMessage(Error(UnknownType(t)), c, failing);
    }
  }

  /** The `subscribe` branch of the dispatcher. */
  method HandleSubscribe(mgr: ConnectionManager, c: string, id: Json, failing: set<string>)
    requires mgr.Valid()
    modifies mgr
    ensures mgr.Valid()
    ensures mgr.State() == Handled(old(mgr.State()), c, SubscribeCommand(id), failing)
  {
    if !Truthy(id) {
      mgr.SendPersonalMessage(Error(AnalysisIdRequired), c, failing);
    } else if !id.JStr? {
      mgr.SendPersonalMessage(Error(ProcessingFailed), c, failing);
    } else {
      mgr.SubscribeToAnalysis(c, id.s);
      mgr.SendPersonalMessage(SubscriptionConfirmed(id.s, None), c, failing);
    }
  }

  /** The `unsubscribe` branch: no reply at all when the id is missing. */
  method HandleUnsubscribe(mgr: ConnectionManager, c: string, id: Json, failing: set<string>)
    requires mgr.Valid()
    modifies mgr
    ensures mgr.Valid()
    ensures mgr.State() == Handled(old(mgr.State()), c, UnsubscribeCommand(id), failing)
  {
    if !Truthy(id) {
      return;
    } else if !id.JStr? {
      mgr.SendPersonalMessage(Error(ProcessingFailed), c, failing);
    } else {
      mgr.UnsubscribeFromAnalysis(c, id.s);
      mgr.SendPersonalMessage(UnsubscriptionConfirmed(id.s), c, failing);
    }
  }

  /** One turn of the receive loop: decode, then dispatch; text that does not decode gets an error. */
  method ReceiveText(mgr: ConnectionManager, c: string, parsed: Option<Json>, failing: set<string>)
    requires mgr.Valid()
    modifies mgr
    ensures mgr.Valid()
    ensures mgr.State() == Received(old(mgr.State()), c, parsed, failing)
  {
    if parsed.None? {
      mgr.SendPersonalMessage(Error(InvalidJson), c, failing);
    } else {
      HandleMessage(mgr, c, parsed.value, failing);
    }
  }

  /**
   * `websocket_analysis_endpoint`: connect, the optional initial subscription, the
   * receive loop over `inputs`, and the disconnect when the client goes away.
   */
  method AnalysisEndpoint(mgr: ConnectionManager, ws: Socket, c: string, analysisId: Option<string>,
                          inputs: seq<Option<Json>>, failing: set<string>)
    requires mgr.Valid()
    modifies mgr
    ensures mgr.Valid()
    ensures mgr.State() == Session(old(mgr.State()), ws, c, analysisId, inputs, failing)
  {
    ghost var r0 := mgr.State();
    mgr.Connect(ws, c);
    if analysisId.Some? && analysisId.value != "" {
      mgr.SubscribeToAnalysis(c, analysisId.value);
      mgr.SendPersonalMessage(SubscriptionConfirmed(analysisId.value, Some(c)), c, failing);
    }
    ghost var r1 := mgr.State();
    assert r1 == Opened(r0, ws, c, analysisId, failing);
    for i := 0 to |inputs|
      invariant mgr.Valid()
      invariant mgr.State() == ReceivedAll(r1, c, inputs[..i], failing)
    {
      assert inputs[..i + 1][..i] == inputs[..i];
      ReceiveText(mgr, c, inputs[i], failing);
    }
    assert inputs[..|inputs|] == inputs;
    mgr.Disconnect(c);
  }

  // ---------------------------------------------------------------------------
  // websocket_broadcast_endpoint

  /** The reply written back to the admin socket. */
  datatype AdminReply =
    | AdminInvalidJson                        // "Invalid JSON format"
    | AdminBadFormat                          // "Invalid message format. Required: type, content"
    | AdminFailed                             // "Error processing broadcast: ..."
    | BroadcastSent(recipients: nat, message: Json)

  /** Python's `key in message` on a decoded value; `None` where the test itself raises. */
  function PyIn(key: string, m: Json): Option<bool>
  {
    match m
    case JObj(fields) => Some(key in fields)
    case JArr(items) => Some(JStr(key) in items)
    case JStr(s) => Some(Contains(s, key))
    case _ => None
  }

  /**
   * The admin message's validation: `"type" not in message or "content" not in message`,
   * then `message["type"]` and `message["content"]`, which raise on anything but an object.
   * The result is the pair to broadcast, or the reply that replaces the broadcast.
   */
  function AdminCheck(m: Json): Result<(Json, Json), AdminReply>
  {
    match PyIn("type", m)
    case None => Failure(AdminFailed)
    case Some(hasType) =>
      if !hasType then Failure(AdminBadFormat)
      else match PyIn("content", m)
        case None => Failure(AdminFailed)
        case Some(hasContent) =>
          if !hasContent then Failure(AdminBadFormat)
          else if !m.JObj? then Failure(AdminFailed)
          else Success((m.fields["type"], m.fields["content"]))
  }

  /** One admin message: the registry after it and the reply to the admin. */
  function AdminStep(r: Registry, parsed: Option<Json>, failing: set<string>): (Registry, AdminReply)
  {
    if parsed.None? then (r, AdminInvalidJson)
    else match AdminCheck(parsed.value)
      case Failure(reply) => (r, reply)
      case Success(pair) =>
        var r' := Broadcasted(r, Broadcast(pair.0, pair.1), failing);
        (r', BroadcastSent(|r'.connections.Keys|, parsed.value))
  }

  /**
   * An object with both `type` and `content` is broadcast as a `broadcast` message to
   * every connected client whose send succeeds, and the admin is told how many clients
   * remain connected afterwards: those whose send did not fail. An object missing either
   * field is refused and nothing is broadcast.
   */
  lemma AdminBroadcastReaches(r: Registry, fields: map<string, Json>, failing: set<string>)
    requires WellFormed(r)
    ensures var (r', reply) := AdminStep(r, Some(JObj(fields)), failing);
      && ("type" !in fields || "content" !in fields ==> r' == r && reply == AdminBadFormat)
      && ("type" in fields && "content" in fields ==>
            && r' == Broadcasted(r, Broadcast(fields["type"], fields["content"]), failing)
            && reply == BroadcastSent(|r.connections.Keys - failing|, JObj(fields)))
  {
    if "type" in fields && "content" in fields {
      var msg := Broadcast(fields["type"], fields["content"]);
      AdminRecipients(r, msg, failing);
    }
  }

  /** After a broadcast the clients left connected are exactly those whose send did not fail. */
  lemma AdminRecipients(r: Registry, msg: Message, failing: set<string>)
    requires WellFormed(r)
    ensures Broadcasted(r, msg, failing).connections.Keys == r.connections.Keys - failing
  {
    if r.connections != map[] {
      var lost := FailedSends(r.order, r.connections, failing);
      assert lost == r.connections.Keys * failing;
      var r0 := r.(outbox := r.outbox + Fanout(r.order, r.connections, failing, msg));
      if lost == {} {
        DisconnectedNone(r0);
      }
    }
  }

  /** Anything but an object is refused, and nothing is broadcast. */
  lemma AdminNonObject(r: Registry, m: Json, failing: set<string>)
    ensures !m.JObj? ==> AdminStep(r, Some(m), failing).0 == r && AdminStep(r, Some(m), failing).1 != AdminInvalidJson
    ensures AdminStep(r, None, failing) == (r, AdminInvalidJson)
  {
  }

  /** One turn of the admin loop on the shared manager. */
  method AdminReceive(mgr: ConnectionManager, parsed: Option<Json>, failing: set<string>) returns (reply: AdminReply)
    requires mgr.Valid()
    modifies mgr
    ensures mgr.Valid()
    ensures (mgr.State(), reply) == AdminStep(old(mgr.State()), parsed, failing)
  {
    if parsed.None? {
      return AdminInvalidJson;
    }
    var check := AdminCheck(parsed.value);
    if check.Failure? {
      return check.error;
    }
    mgr.Broadcast(Broadcast(check.value.0, check.value.1), failing);
    reply := BroadcastSent(|mgr.connections.Keys|, parsed.value);
  }

  /** The admin loop over several messages. */
  function AdminAll(r: Registry, inputs: seq<Option<Json>>, failing: set<string>): (Registry, seq<AdminReply>)
  {
    if inputs == [] then (r, [])
    else
      var (before, replies) := AdminAll(r, inputs[..|inputs| - 1], failing);
      var (after, reply) := AdminStep(before, inputs[|inputs| - 1], failing);
      (after, replies + [reply])
  }

  /** Every admin message gets exactly one reply, whatever it holds. */
  lemma {:induction false} AdminRepliesOnce(r: Registry, inputs: seq<Option<Json>>, failing: set<string>)
    ensures |AdminAll(r, inputs, failing).1| == |inputs|
  {
    if inputs != [] {
      AdminRepliesOnce(r, inputs[..|inputs| - 1], failing);
    }
  }

  /** `websocket_broadcast_endpoint`: the admin loop until the admin disconnects. */
  method AdminEndpoint(mgr: ConnectionManager, inputs: seq<Option<Json>>, failing: set<string>)
    returns (replies: seq<AdminReply>)
    requires mgr.Valid()
    modifies mgr
    ensures mgr.Valid()
    ensures (mgr.State(), replies) == AdminAll(old(mgr.State()), inputs, failing)
  {
    ghost var r0 := mgr.State();
    replies := [];
    for i := 0 to |inputs|
      invariant mgr.Valid()
      invariant (mgr.State(), replies) == AdminAll(r0, inputs[..i], failing)
    {
      assert inputs[..i + 1][..i] == inputs[..i];
      var reply := AdminReceive(mgr, inputs[i], failing);
      replies := replies + [reply];
    }
    assert inputs[..|inputs|] == inputs;
  }
}
