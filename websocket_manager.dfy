/**
 * The WebSocket connection manager: which client is connected over which socket,
 * and which clients follow which analysis. The registry's state is described by the
 * value `Registry`; every operation is first defined on that value, its properties are
 * proved as lemmas, and the class `ConnectionManager` implements the operations by
 * updating its tables in place and is proved against those definitions.
 */
module WebSocketManager {
  import opened Wrappers
  import opened JsonValue
  import opened Seqs
  import opened Messages

  /**
   * The manager's state. `order` is the insertion order of `connections` (the order in
   * which a Python dict yields its keys); `outbox` lists every message written so far.
   */
  datatype Registry = Registry(
    connections: map<string, Socket>,
    order: seq<string>,
    subscriptions: map<string, seq<string>>,
    outbox: seq<Delivery>)

  /** The registry's invariant: `order` lists each connected client once, and no analysis lists a client twice. */
  ghost predicate WellFormed(r: Registry)
  {
    && Distinct(r.order)
    && Elems(r.order) == r.connections.Keys
    && forall a | a in r.subscriptions :: Distinct(r.subscriptions[a])
  }

  // ---------------------------------------------------------------------------
  // The operations, on values

  /** `connect`: the client's entry now holds `ws`; a client seen for the first time goes last. */
  function Connected(r: Registry, ws: Socket, c: string): Registry
  {
    r.(connections := r.connections[c := ws],
       order := if c in r.connections then r.order else r.order + [c])
  }

  /** Every analysis list with the clients of `gone` removed; lists left empty are dropped. */
  function DropClients(subs: map<string, seq<string>>, gone: set<string>): map<string, seq<string>>
  {
    map a | a in subs && Without(subs[a], gone) != [] :: Without(subs[a], gone)
  }

  /**
   * The clients of `gone` disconnected one after another: no connection, no subscription;
   * once at least one client was disconnected, the dictionary rebuild has dropped every
   * empty subscription list.
   */
  function DisconnectedAll(r: Registry, gone: set<string>): Registry
  {
    r.(connections := r.connections - gone,
       order := Without(r.order, gone),
       subscriptions := if gone == {} then r.subscriptions else DropClients(r.subscriptions, gone))
  }

  /** The list of an analysis after subscribing `c`: appended unless already there. */
  function WithSubscriber(list: seq<string>, c: string): seq<string>
  {
    if c in list then list else list + [c]
  }

  /** `subscribe_to_analysis`. */
  function Subscribed(r: Registry, c: string, a: string): Registry
  {
    var list := if a in r.subscriptions then r.subscriptions[a] else [];
    r.(subscriptions := r.subscriptions[a := WithSubscriber(list, c)])
  }

  /** `unsubscribe_from_analysis`. */
  function Unsubscribed(r: Registry, c: string, a: string): Registry
  {
    if a in r.subscriptions && c in r.subscriptions[a] then
      r.(subscriptions := r.subscriptions[a := RemoveFirst(r.subscriptions[a], c)])
    else r
  }

  /** The clients a list of deliveries went to, in order. */
  function Recipients(ds: seq<Delivery>): (cs: seq<string>)
    ensures |cs| == |ds|
    ensures forall i | 0 <= i < |ds| :: cs[i] == ds[i].client
  {
    if ds == [] then [] else Recipients(ds[..|ds| - 1]) + [ds[|ds| - 1].client]
  }

  /**
   * The send loop over `targets`: one delivery of `msg` to every target that is connected
   * and whose send does not fail, in list order.
   */
  function Fanout(targets: seq<string>, conns: map<string, Socket>, failing: set<string>, msg: Message): seq<Delivery>
  {
    if targets == [] then []
    else
      var c := targets[|targets| - 1];
      Fanout(targets[..|targets| - 1], conns, failing, msg)
        + (if c in conns && c !in failing then [Delivery(c, conns[c], msg)] else [])
  }

  /** The targets whose send raised: they are collected during the loop and disconnected after it. */
  function FailedSends(targets: seq<string>, conns: map<string, Socket>, failing: set<string>): set<string>
  {
    set c | c in targets && c in conns && c in failing
  }

  /** A send loop followed by the clean-up of the clients whose send failed. */
  function SentTo(r: Registry, targets: seq<string>, failing: set<string>, msg: Message): Registry
  {
    DisconnectedAll(r.(outbox := r.outbox + Fanout(targets, r.connections, failing, msg)),
                    FailedSends(targets, r.connections, failing))
  }

  /** `broadcast`: every connected client in connection order; nothing at all when nobody is connected. */
  function Broadcasted(r: Registry, msg: Message, failing: set<string>): Registry
  {
    if r.connections == map[] then r else SentTo(r, r.order, failing, msg)
  }

  /** `send_analysis_update`: an `analysis_update` to the analysis's subscribers, if it has an entry. */
  function Updated(r: Registry, a: string, data: Json, failing: set<string>): Registry
  {
    if a !in r.subscriptions then r else SentTo(r, r.subscriptions[a], failing, AnalysisUpdate(a, data))
  }

  /** `get_connection_stats`. */
  function Stats(r: Registry): (s: ConnectionStats)
    requires WellFormed(r)
    ensures s.totalConnections == |s.clients|
    ensures Elems(s.clients) == r.connections.Keys && Distinct(s.clients)
    ensures s.clients == r.order
    ensures s.activeSubscriptions == |r.subscriptions.Keys|
  {
    DistinctCard(r.order);
    ConnectionStats(|r.connections.Keys|, |r.subscriptions.Keys|, r.order)
  }

  // ---------------------------------------------------------------------------
  // Properties of the operations

  /** Filtering every list keeps each one duplicate-free. */
  lemma WithoutDistinctAll(subs: map<string, seq<string>>, gone: set<string>)
    requires forall a | a in subs :: Distinct(subs[a])
    ensures forall a | a in subs :: Distinct(Without(subs[a], gone))
    ensures forall a | a in DropClients(subs, gone) :: Distinct(DropClients(subs, gone)[a])
  {
    forall a | a in subs
      ensures Distinct(Without(subs[a], gone))
    {
      WithoutDistinct(subs[a], gone);
    }
  }

  /** Every operation keeps the registry well formed. */
  lemma ConnectedWellFormed(r: Registry, ws: Socket, c: string)
    requires WellFormed(r)
    ensures WellFormed(Connected(r, ws, c))
  {
    DistinctAppend(r.order, c);
  }

  lemma DisconnectedAllWellFormed(r: Registry, gone: set<string>)
    requires WellFormed(r)
    ensures WellFormed(DisconnectedAll(r, gone))
  {
    WithoutDistinctAll(r.subscriptions, gone);
    WithoutDistinct(r.order, gone);
    WithoutMembers(r.order, gone);
  }

  lemma SubscribedWellFormed(r: Registry, c: string, a: string)
    requires WellFormed(r)
    ensures WellFormed(Subscribed(r, c, a))
  {
    var list := if a in r.subscriptions then r.subscriptions[a] else [];
    DistinctAppend(list, c);
  }

  lemma UnsubscribedWellFormed(r: Registry, c: string, a: string)
    requires WellFormed(r)
    ensures WellFormed(Unsubscribed(r, c, a))
  {
    if a in r.subscriptions && c in r.subscriptions[a] {
      RemoveFirstIsWithout(r.subscriptions[a], c);
      WithoutDistinct(r.subscriptions[a], {c});
    }
  }

  lemma SentToWellFormed(r: Registry, targets: seq<string>, failing: set<string>, msg: Message)
    requires WellFormed(r)
    ensures WellFormed(SentTo(r, targets, failing, msg))
    ensures WellFormed(Broadcasted(r, msg, failing))
    ensures forall a, data: Json :: WellFormed(Updated(r, a, data, failing))
  {
    DisconnectedAllWellFormed(r.(outbox := r.outbox + Fanout(targets, r.connections, failing, msg)),
                              FailedSends(targets, r.connections, failing));
    DisconnectedAllWellFormed(r.(outbox := r.outbox + Fanout(r.order, r.connections, failing, msg)),
                              FailedSends(r.order, r.connections, failing));
    forall a, data: Json
      ensures WellFormed(Updated(r, a, data, failing))
    {
      if a in r.subscriptions {
        var m := AnalysisUpdate(a, data);
        DisconnectedAllWellFormed(r.(outbox := r.outbox + Fanout(r.subscriptions[a], r.connections, failing, m)),
                                  FailedSends(r.subscriptions[a], r.connections, failing));
      }
    }
  }

  /** Connecting stores the new socket, replacing an older one, and changes nothing else. */
  lemma ConnectReplaces(r: Registry, ws: Socket, c: string)
    requires WellFormed(r)
    ensures var r' := Connected(r, ws, c);
      && r'.connections[c] == ws
      && r'.connections.Keys == r.connections.Keys + {c}
      && (forall x | x in r.connections && x != c :: r'.connections[x] == r.connections[x])
      && r'.subscriptions == r.subscriptions
      && r'.outbox == r.outbox
      && |r'.order| == |r.connections.Keys + {c}|
      && r.order <= r'.order
      && (c in r.connections ==> r'.order == r.order)
      && (c !in r.connections ==> r'.order[|r'.order| - 1] == c)
  {
    DistinctCard(r.order);
    if c !in r.connections {
      assert |r.connections.Keys + {c}| == |r.connections.Keys| + 1;
    } else {
      assert r.connections.Keys + {c} == r.connections.Keys;
    }
  }

  /** Dropping clients twice is dropping them all at once. */
  lemma {:induction false} DropClientsTwice(subs: map<string, seq<string>>, a: set<string>, b: set<string>)
    ensures DropClients(DropClients(subs, a), b) == DropClients(subs, a + b)
  {
    var mid := DropClients(subs, a);
    var lhs := DropClients(mid, b);
    var rhs := DropClients(subs, a + b);
    forall k | k in subs
      ensures k in lhs <==> k in rhs
      ensures k in lhs ==> lhs[k] == rhs[k]
    {
      WithoutWithout(subs[k], a, b);
      var w := Without(subs[k], a);
      if w == [] {
        assert k !in mid;
        assert Without(w, b) == [];
      } else {
        assert k in mid && mid[k] == w;
      }
    }
    assert lhs.Keys <= subs.Keys;
    assert rhs.Keys <= subs.Keys;
    assert lhs.Keys == rhs.Keys;
  }

  /** Every analysis list with the clients of `gone` removed, empty lists kept. */
  function Filtered(subs: map<string, seq<string>>, gone: set<string>): map<string, seq<string>>
  {
    map a | a in subs :: Without(subs[a], gone)
  }

  /** The lists of `pending` analyses as they were, the others with `c` removed. */
  function PartlyFiltered(subs: map<string, seq<string>>, pending: set<string>, c: string): map<string, seq<string>>
  {
    map a | a in subs :: if a in pending then subs[a] else Without(subs[a], {c})
  }

  lemma PartlyFilteredNone(subs: map<string, seq<string>>, c: string)
    ensures PartlyFiltered(subs, subs.Keys, c) == subs
  {
  }

  lemma PartlyFilteredStep(subs: map<string, seq<string>>, pending: set<string>, a: string, c: string)
    requires a in pending && pending <= subs.Keys
    ensures PartlyFiltered(subs, pending - {a}, c) == PartlyFiltered(subs, pending, c)[a := Without(subs[a], {c})]
    ensures PartlyFiltered(subs, pending, c)[a] == subs[a]
  {
  }

  lemma PartlyFilteredDone(subs: map<string, seq<string>>, c: string)
    ensures PartlyFiltered(subs, {}, c) == Filtered(subs, {c})
  {
  }

  /** The dictionary rebuilt without its empty lists. */
  function NonEmpty(subs: map<string, seq<string>>): map<string, seq<string>>
  {
    map a | a in subs && subs[a] != [] :: subs[a]
  }

  /** Disconnecting one client, field by field: filtering each list, then the rebuild. */
  lemma DisconnectOne(r: Registry, c: string)
    requires WellFormed(r)
    ensures DisconnectedAll(r, {c})
      == Registry(r.connections - {c}, Without(r.order, {c}), NonEmpty(Filtered(r.subscriptions, {c})), r.outbox)
    ensures WellFormed(DisconnectedAll(r, {c}))
  {
    assert NonEmpty(Filtered(r.subscriptions, {c})) == DropClients(r.subscriptions, {c});
    DisconnectedAllWellFormed(r, {c});
  }

  /** Disconnecting nobody changes nothing. */
  lemma DisconnectedNone(r: Registry)
    requires WellFormed(r)
    ensures DisconnectedAll(r, {}) == r
  {
    WithoutNothing(r.order, {});
  }

  /** Disconnecting clients one at a time is disconnecting the whole set. */
  lemma DisconnectedAllStep(r: Registry, gone: set<string>, c: string)
    requires WellFormed(r)
    ensures DisconnectedAll(DisconnectedAll(r, gone), {c}) == DisconnectedAll(r, gone + {c})
  {
    var r1 := DisconnectedAll(r, gone);
    var r2 := DisconnectedAll(r1, {c});
    var r3 := DisconnectedAll(r, gone + {c});
    WithoutWithout(r.order, gone, {c});
    assert r2.connections == r3.connections;
    assert r2.order == r3.order;
    assert c in gone + {c};
    if gone != {} {
      DropClientsTwice(r.subscriptions, gone, {c});
    } else {
      assert gone + {c} == {c};
    }
    assert r2.subscriptions == r3.subscriptions;
    assert r2.outbox == r3.outbox;
  }

  /**
   * After a disconnect the clients of `gone` have no connection and sit in no list, no
   * list is empty (even one emptied earlier by an unsubscribe), and every other client
   * keeps its connection and exactly the subscriptions it had.
   */
  lemma {:induction false} DisconnectCleansUp(r: Registry, gone: set<string>)
    requires WellFormed(r) && gone != {}
    ensures var r' := DisconnectedAll(r, gone);
      && (forall c | c in gone :: c !in r'.connections && c !in r'.order)
      && (forall a | a in r'.subscriptions :: r'.subscriptions[a] != [])
      && (forall a, c | a in r'.subscriptions && c in r'.subscriptions[a] :: c !in gone)
      && (forall c | c in r.connections && c !in gone :: c in r'.connections && r'.connections[c] == r.connections[c])
      && (forall a, c | a in r.subscriptions && c in r.subscriptions[a] && c !in gone ::
            a in r'.subscriptions && c in r'.subscriptions[a])
      && (forall a | a in r'.subscriptions :: a in r.subscriptions)
  {
    var r' := DisconnectedAll(r, gone);
    WithoutMembers(r.order, gone);
    forall a | a in r.subscriptions
      ensures forall c :: c in Without(r.subscriptions[a], gone) <==> c in r.subscriptions[a] && c !in gone
    {
      WithoutMembers(r.subscriptions[a], gone);
    }
  }

  /** Subscribing puts the client in the analysis's list exactly once and touches no other list. */
  lemma SubscribeOnce(r: Registry, c: string, a: string)
    requires WellFormed(r)
    ensures var r' := Subscribed(r, c, a);
      && a in r'.subscriptions
      && multiset(r'.subscriptions[a])[c] == 1
      && (forall b | b != a :: (b in r'.subscriptions <==> b in r.subscriptions))
      && (forall b | b in r.subscriptions && b != a :: r'.subscriptions[b] == r.subscriptions[b])
      && r'.connections == r.connections && r'.order == r.order && r'.outbox == r.outbox
  {
    var r' := Subscribed(r, c, a);
    DistinctCount(r'.subscriptions[a], c);
  }

  /** In a duplicate-free list a member occurs exactly once. */
  lemma {:induction false} DistinctCount(s: seq<string>, c: string)
    requires Distinct(s) && c in s
    ensures multiset(s)[c] == 1
  {
    var p := s[..|s| - 1];
    var x := s[|s| - 1];
    assert s == p + [x];
    assert Distinct(p);
    if x == c {
      assert c !in p;
    } else {
      DistinctCount(p, c);
    }
  }

  /** Subscribing twice is subscribing once. */
  lemma SubscribeIdempotent(r: Registry, c: string, a: string)
    requires WellFormed(r)
    ensures Subscribed(Subscribed(r, c, a), c, a) == Subscribed(r, c, a)
  {
  }

  /**
   * Unsubscribing removes the client from that one list, leaves the (possibly empty) list
   * in place, and is a no-op when the client is not subscribed.
   */
  lemma UnsubscribeRemovesOnly(r: Registry, c: string, a: string)
    requires WellFormed(r)
    ensures var r' := Unsubscribed(r, c, a);
      && r'.subscriptions.Keys == r.subscriptions.Keys
      && (a in r'.subscriptions ==>
            c !in r'.subscriptions[a] && Elems(r'.subscriptions[a]) == Elems(r.subscriptions[a]) - {c})
      && (forall b | b in r.subscriptions && b != a :: r'.subscriptions[b] == r.subscriptions[b])
      && r'.connections == r.connections && r'.order == r.order && r'.outbox == r.outbox
      && ((a !in r.subscriptions || c !in r.subscriptions[a]) ==> r' == r)
  {
    if a in r.subscriptions && c in r.subscriptions[a] {
      RemoveFirstIsWithout(r.subscriptions[a], c);
      WithoutMembers(r.subscriptions[a], {c});
    }
  }

  /** The deliveries of a send loop go exactly to the connected, non-failing targets, in list order. */
  lemma {:induction false} FanoutRecipients(targets: seq<string>, conns: map<string, Socket>, failing: set<string>, msg: Message)
    ensures Recipients(Fanout(targets, conns, failing, msg)) == Without(Select(targets, conns.Keys), failing)
  {
    if targets != [] {
      var p := targets[..|targets| - 1];
      var c := targets[|targets| - 1];
      FanoutRecipients(p, conns, failing, msg);
      var ds := Fanout(p, conns, failing, msg);
      var tail := if c in conns && c !in failing then [Delivery(c, conns[c], msg)] else [];
      RecipientsAppend(ds, tail);
      var sel := Select(p, conns.Keys);
      if c in conns {
        assert Select(targets, conns.Keys) == sel + [c];
        assert (sel + [c])[..|sel + [c]| - 1] == sel;
      } else {
        assert Select(targets, conns.Keys) == sel;
      }
    }
  }

  /** Every delivery of a send loop carries the message, to a connected, non-failing target over its socket. */
  lemma {:induction false} FanoutSound(targets: seq<string>, conns: map<string, Socket>, failing: set<string>, msg: Message)
    ensures forall d | d in Fanout(targets, conns, failing, msg) ::
      && d.client in targets && d.client in conns && d.client !in failing
      && d.socket == conns[d.client] && d.message == msg
  {
    if targets != [] {
      var p := targets[..|targets| - 1];
      FanoutSound(p, conns, failing, msg);
      assert targets == p + [targets[|targets| - 1]];
    }
  }

  /** Recipients of concatenated deliveries. */
  lemma {:induction false} RecipientsAppend(ds: seq<Delivery>, es: seq<Delivery>)
    ensures Recipients(ds + es) == Recipients(ds) + Recipients(es)
  {
    assert |Recipients(ds + es)| == |Recipients(ds) + Recipients(es)|;
  }

  /** A client that is a distinct, connected, non-failing target is written to exactly once. */
  lemma FanoutOnce(targets: seq<string>, conns: map<string, Socket>, failing: set<string>, msg: Message, c: string)
    requires Distinct(targets) && c in targets && c in conns && c !in failing
    ensures multiset(Recipients(Fanout(targets, conns, failing, msg)))[c] == 1
  {
    FanoutRecipients(targets, conns, failing, msg);
    SelectMembers(targets, conns.Keys);
    SelectDistinct(targets, conns.Keys);
    WithoutDistinct(Select(targets, conns.Keys), failing);
    WithoutMembers(Select(targets, conns.Keys), failing);
    DistinctCount(Without(Select(targets, conns.Keys), failing), c);
  }

  /** Selecting keeps a list duplicate-free. */
  lemma {:induction false} SelectDistinct(s: seq<string>, keep: set<string>)
    requires Distinct(s)
    ensures Distinct(Select(s, keep))
  {
    if s != [] {
      var p := s[..|s| - 1];
      assert Distinct(p);
      SelectDistinct(p, keep);
      SelectMembers(p, keep);
      assert s[|s| - 1] !in p;
    }
  }

  /**
   * After a send loop, clients whose send failed are disconnected; every other client keeps
   * its connection and its subscriptions, and the deliveries are appended to the outbox.
   */
  lemma SendKeepsSurvivors(r: Registry, targets: seq<string>, failing: set<string>, msg: Message)
    requires WellFormed(r)
    ensures var r' := SentTo(r, targets, failing, msg);
      var lost := FailedSends(targets, r.connections, failing);
      && r'.outbox == r.outbox + Fanout(targets, r.connections, failing, msg)
      && (forall c | c in lost :: c !in r'.connections)
      && (forall c | c in r.connections && c !in lost :: c in r'.connections && r'.connections[c] == r.connections[c])
      && (forall a, c | a in r.subscriptions && c in r.subscriptions[a] && c !in lost ::
            a in r'.subscriptions && c in r'.subscriptions[a])
      && (lost == {} ==> r'.subscriptions == r.subscriptions && r'.connections == r.connections)
  {
    var lost := FailedSends(targets, r.connections, failing);
    var r0 := r.(outbox := r.outbox + Fanout(targets, r.connections, failing, msg));
    assert SentTo(r, targets, failing, msg) == DisconnectedAll(r0, lost);
    if lost != {} {
      DisconnectCleansUp(r0, lost);
    } else {
      DisconnectedNone(r0);
    }
  }

  /**
   * `send_analysis_update` writes one `analysis_update` carrying the analysis id and the
   * data to each subscriber that is connected and whose send succeeds, in list order.
   */
  lemma UpdateDelivers(r: Registry, a: string, data: Json, failing: set<string>)
    requires WellFormed(r) && a in r.subscriptions
    ensures var r' := Updated(r, a, data, failing);
      && |r.outbox| <= |r'.outbox|
      && r'.outbox[..|r.outbox|] == r.outbox
      && Recipients(r'.outbox[|r.outbox|..]) == Without(Select(r.subscriptions[a], r.connections.Keys), failing)
      && (forall d | d in r'.outbox[|r.outbox|..] ::
            d.message == AnalysisUpdate(a, data) && d.client in r.connections && d.socket == r.connections[d.client])
  {
    var ds := Fanout(r.subscriptions[a], r.connections, failing, AnalysisUpdate(a, data));
    SendKeepsSurvivors(r, r.subscriptions[a], failing, AnalysisUpdate(a, data));
    assert (r.outbox + ds)[..|r.outbox|] == r.outbox;
    assert (r.outbox + ds)[|r.outbox|..] == ds;
    FanoutRecipients(r.subscriptions[a], r.connections, failing, AnalysisUpdate(a, data));
    FanoutSound(r.subscriptions[a], r.connections, failing, AnalysisUpdate(a, data));
  }

  /**
   * `broadcast` with somebody connected writes the message once to every connected client
   * whose send succeeds, in connection order.
   */
  lemma BroadcastReachesAll(r: Registry, msg: Message, failing: set<string>)
    requires WellFormed(r) && r.connections != map[]
    ensures var r' := Broadcasted(r, msg, failing);
      && |r.outbox| <= |r'.outbox|
      && r'.outbox[..|r.outbox|] == r.outbox
      && Recipients(r'.outbox[|r.outbox|..]) == Without(r.order, failing)
      && (forall d | d in r'.outbox[|r.outbox|..] :: d.message == msg && d.client in r.connections && d.socket == r.connections[d.client])
  {
    var ds := Fanout(r.order, r.connections, failing, msg);
    SendKeepsSurvivors(r, r.order, failing, msg);
    assert (r.outbox + ds)[..|r.outbox|] == r.outbox;
    assert (r.outbox + ds)[|r.outbox|..] == ds;
    FanoutRecipients(r.order, r.connections, failing, msg);
    FanoutSound(r.order, r.connections, failing, msg);
    SelectAll(r.order, r.connections.Keys);
  }

  /** Sending to a single client: a delivery, a disconnect, or nothing. */
  lemma SentToOne(r: Registry, c: string, failing: set<string>, msg: Message)
    requires WellFormed(r)
    ensures SentTo(r, [c], failing, msg)
      == if c !in r.connections then r
         else if c in failing then DisconnectedAll(r, {c})
         else r.(outbox := r.outbox + [Delivery(c, r.connections[c], msg)])
  {
    var t := [c];
    assert t[..|t| - 1] == [] && t[|t| - 1] == c;
    assert Fanout([], r.connections, failing, msg) == [];
    var sent := Fanout(t, r.connections, failing, msg);
    if c in r.connections && c !in failing {
      assert sent == [Delivery(c, r.connections[c], msg)];
    } else {
      assert sent == [];
      assert r.(outbox := r.outbox + sent) == r;
    }
    if c in r.connections && c in failing {
      assert FailedSends([c], r.connections, failing) == {c};
    } else {
      assert FailedSends([c], r.connections, failing) == {};
      DisconnectedNone(r.(outbox := r.outbox + sent));
    }
  }

  /** One more step of the send loop. */
  lemma FanoutPrefix(targets: seq<string>, i: nat, conns: map<string, Socket>, failing: set<string>, msg: Message)
    requires i < |targets|
    ensures Fanout(targets[..i + 1], conns, failing, msg)
      == Fanout(targets[..i], conns, failing, msg)
         + (if targets[i] in conns && targets[i] !in failing then [Delivery(targets[i], conns[targets[i]], msg)] else [])
  {
    assert targets[..i + 1][..i] == targets[..i];
  }

  /** The failures collected by the send loop are the failed sends. */
  lemma FailedSendsElems(targets: seq<string>, conns: map<string, Socket>, failing: set<string>)
    ensures Elems(Select(targets, conns.Keys * failing)) == FailedSends(targets, conns, failing)
  {
    SelectMembers(targets, conns.Keys * failing);
  }

  /** A broadcast with nobody connected, or an update for an analysis without an entry, changes nothing. */
  lemma NothingToSend(r: Registry, msg: Message, a: string, data: Json, failing: set<string>)
    requires WellFormed(r)
    ensures r.connections == map[] ==> Broadcasted(r, msg, failing) == r
    ensures a !in r.subscriptions ==> Updated(r, a, data, failing) == r
  {
  }

  // ---------------------------------------------------------------------------
  // The manager object

  /** `ConnectionManager`: the two tables, updated in place, and the messages written. */
  class ConnectionManager {
    var connections: map<string, Socket>
    var order: seq<string>
    var subscriptions: map<string, seq<string>>
    var outbox: seq<Delivery>

    function State(): Registry
      reads this
    {
      Registry(connections, order, subscriptions, outbox)
    }

    ghost predicate Valid()
      reads this
    {
      WellFormed(State())
    }

    constructor ()
      ensures Valid()
      ensures State() == Registry(map[], [], map[], [])
    {
      connections := map[];
      order := [];
      subscriptions := map[];
      outbox := [];
    }

    /** `connect`: the handshake itself is not modelled; the client is registered. */
    method Connect(ws: Socket, c: string)
      requires Valid()
      modifies this
      ensures Valid()
      ensures State() == Connected(old(State()), ws, c)
    {
      if c !in connections {
        DistinctAppend(order, c);
        order := order + [c];
      }
      connections := connections[c := ws];
    }

    /** `disconnect`: drop the connection, remove the client from every list, then drop empty lists. */
    method Disconnect(c: string)
      requires Valid()
      modifies this
      ensures Valid()
      ensures State() == DisconnectedAll(old(State()), {c})
    {
      ghost var before := State();
      if c in connections {
        connections := connections - {c};
        order := Without(order, {c});
      } else {
        WithoutNothing(order, {c});
        assert connections == before.connections - {c};
      }
      RemoveFromEveryList(c);
      subscriptions := NonEmpty(subscriptions);
      DisconnectOne(before, c);
    }

    /** The loop of `disconnect` over the subscription lists: `list.remove` where the client occurs. */
    method RemoveFromEveryList(c: string)
      requires forall a | a in subscriptions :: Distinct(subscriptions[a])
      modifies this
      ensures subscriptions == Filtered(old(subscriptions), {c})
      ensures connections == old(connections) && order == old(order) && outbox == old(outbox)
    {
      var subs := subscriptions;
      var lists := subs;
      var pending := subs.Keys;
      PartlyFilteredNone(subs, c);
      while pending != {}
        invariant pending <= subs.Keys
        invariant lists == PartlyFiltered(subs, pending, c)
        invariant unchanged(this)
        decreases pending
      {
        var a :| a in pending;
        PartlyFilteredStep(subs, pending, a, c);
        if c in lists[a] {
          RemoveFirstIsWithout(lists[a], c);
          lists := lists[a := RemoveFirst(lists[a], c)];
        } else {
          WithoutNothing(lists[a], {c});
          assert lists == lists[a := Without(subs[a], {c})];
        }
        pending := pending - {a};
      }
      PartlyFilteredDone(subs, c);
      subscriptions := lists;
    }

    /** Disconnects the collected clients one after another. */
    method DisconnectEach(gone: seq<string>)
      requires Valid()
      modifies this
      ensures Valid()
      ensures State() == DisconnectedAll(old(State()), Elems(gone))
    {
      ghost var before := State();
      ghost var done: set<string> := {};
      DisconnectedNone(before);
      for j := 0 to |gone|
        invariant Valid()
        invariant done == Elems(gone[..j])
        invariant State() == DisconnectedAll(before, done)
      {
        DisconnectedAllStep(before, done, gone[j]);
        Disconnect(gone[j]);
        ElemsPrefix(gone, j);
        done := done + {gone[j]};
      }
      assert gone[..|gone|] == gone;
    }

    /** `send_personal_message`: a client whose send fails is disconnected. */
    method SendPersonalMessage(msg: Message, c: string, failing: set<string>)
      requires Valid()
      modifies this
      ensures Valid()
      ensures State() == SentTo(old(State()), [c], failing, msg)
    {
      ghost var before := State();
      SentToOne(before, c, failing, msg);
      if c in connections {
        if c in failing {
          Disconnect(c);
        } else {
          outbox := outbox + [Delivery(c, connections[c], msg)];
        }
      }
    }

    /** The shared send loop: write to each target in order, collect the failures, disconnect them afterwards. */
    method SendAll(targets: seq<string>, msg: Message, failing: set<string>)
      requires Valid()
      modifies this
      ensures Valid()
      ensures State() == SentTo(old(State()), targets, failing, msg)
    {
      ghost var before := State();
      var disconnected := WriteEach(targets, msg, failing);
      FailedSendsElems(targets, before.connections, failing);
      DisconnectEach(disconnected);
    }

    /** The loop of a send: a delivery to each connected target whose send succeeds, the others collected. */
    method WriteEach(targets: seq<string>, msg: Message, failing: set<string>) returns (disconnected: seq<string>)
      modifies this
      ensures connections == old(connections) && order == old(order) && subscriptions == old(subscriptions)
      ensures outbox == old(outbox) + Fanout(targets, connections, failing, msg)
      ensures disconnected == Select(targets, connections.Keys * failing)
    {
      disconnected := [];
      for i := 0 to |targets|
        invariant connections == old(connections) && order == old(order) && subscriptions == old(subscriptions)
        invariant outbox == old(outbox) + Fanout(targets[..i], connections, failing, msg)
        invariant disconnected == Select(targets[..i], connections.Keys * failing)
      {
        FanoutPrefix(targets, i, connections, failing, msg);
        SelectPrefix(targets, i, connections.Keys * failing);
        var c := targets[i];
        if c in connections {
          if c in failing {
            disconnected := disconnected + [c];
          } else {
            outbox := outbox + [Delivery(c, connections[c], msg)];
          }
        }
      }
      assert targets[..|targets|] == targets;
    }

    /** `broadcast`: returns at once when nobody is connected. */
    method Broadcast(msg: Message, failing: set<string>)
      requires Valid()
      modifies this
      ensures Valid()
      ensures State() == Broadcasted(old(State()), msg, failing)
    {
      if connections == map[] {
        return;
      }
      SendAll(order, msg, failing);
    }

    /** `subscribe_to_analysis`: creates the list if needed, appends the client if absent. */
    method SubscribeToAnalysis(c: string, a: string)
      requires Valid()
      modifies this
      ensures Valid()
      ensures State() == Subscribed(old(State()), c, a)
    {
      if a !in subscriptions {
        subscriptions := subscriptions[a := []];
      }
      if c !in subscriptions[a] {
        DistinctAppend(subscriptions[a], c);
        subscriptions := subscriptions[a := subscriptions[a] + [c]];
      }
    }

    /** `unsubscribe_from_analysis`: removes the client from that one list if it is there. */
    method UnsubscribeFromAnalysis(c: string, a: string)
      requires Valid()
      modifies this
      ensures Valid()
      ensures State() == Unsubscribed(old(State()), c, a)
    {
      if a in subscriptions {
        if c in subscriptions[a] {
          RemoveFirstIsWithout(subscriptions[a], c);
          WithoutDistinct(subscriptions[a], {c});
          subscriptions := subscriptions[a := RemoveFirst(subscriptions[a], c)];
        }
      }
    }

    /** `send_analysis_update`: the subscribers of the analysis, from a copy of its list. */
    method SendAnalysisUpdate(a: string, data: Json, failing: set<string>)
      requires Valid()
      modifies this
      ensures Valid()
      ensures State() == Updated(old(State()), a, data, failing)
    {
      if a !in subscriptions {
        return;
      }
      var subscribers := subscriptions[a];
      SendAll(subscribers, AnalysisUpdate(a, data), failing);
    }

    /** `get_connection_stats`. */
    function GetConnectionStats(): (s: ConnectionStats)
      reads this
      requires Valid()
      ensures s.totalConnections == |connections.Keys| && s.activeSubscriptions == |subscriptions.Keys|
      ensures Elems(s.clients) == connections.Keys && Distinct(s.clients)
      ensures s.clients == order
    {
      Stats(State())
    }
  }
}
