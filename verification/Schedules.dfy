/**
 * The relay's operations run without interruption: a send that reaches its device's channel,
 * an acknowledgement that reaches the send's result, and a send that the cache answers.
 */
module Schedules {
  import opened Types
  import opened Router
  import opened Relay
  import opened Rendezvous
  import Wire

  // ---------------------------------------------------------------------------
  // A send
  // ---------------------------------------------------------------------------

  function Routing(k: nat, id: Id, p: Preimage, payload: Bytes): seq<Event> {
    [Invoke(k, id, p, payload), Check(k), Admit(k), Insert(k), Enqueue(k)]
  }

  /** The device's entry is there, its channel alive, and the preimage listed. */
  predicate Admits(m: State, id: Id, p: Preimage) {
    && id in m.tables.devices && m.tables.devices[id].channel !in m.closed
    && Sha256(p) in m.tables.devices[id].commits
  }

  /** What an admitted send leaves behind when its message is in the channel. */
  function Routed(m: State, k: nat, id: Id, p: Preimage, payload: Bytes): State
    requires Admits(m, id, p)
  {
    var entry, msgId := m.tables.devices[id], m.tables.nextId;
    m.(tables := Tables(m.tables.devices[id := entry.(commits := entry.commits - {Sha256(p)})], m.tables.cache - {p},
                        m.tables.pending[msgId := PendingSend(p, k)], NextId(msgId)),
       calls := m.calls[k := Call(id, p, payload, Some(Ticket(m.serials, msgId, entry.channel)), Empty, Waiting)],
       queues := m.queues[entry.channel := m.Queue(entry.channel) + [Delivery(msgId, p, payload)]],
       serials := m.serials + 1)
  }

  lemma CheckMisses(m: State, k: nat)
    requires At(m, k, Checking)
    requires var p := m.calls[k].preimage; p in m.tables.cache ==> m.tables.cache[p].expiresAt <= m.now
    ensures Enabled(m, Check(k))
    ensures Next(m, Check(k)) ==
            m.(tables := m.tables.(cache := m.tables.cache - {m.calls[k].preimage}),
               calls := m.calls[k := m.calls[k].(pc := Admitting)])
  {}

  lemma AdmitSucceeds(m: State, k: nat)
    requires At(m, k, Admitting) && Admits(m, m.calls[k].to, m.calls[k].preimage)
    ensures Enabled(m, Admit(k))
    ensures var id, p := m.calls[k].to, m.calls[k].preimage;
            var entry := m.tables.devices[id];
            Next(m, Admit(k)) ==
            m.(tables := m.tables.(devices := m.tables.devices[id := entry.(commits := entry.commits - {Sha256(p)})],
                                   nextId := NextId(m.tables.nextId)),
               serials := m.serials + 1,
               calls := m.calls[k := m.calls[k].(ticket := Some(Ticket(m.serials, m.tables.nextId, entry.channel)),
                                                 pc := Inserting)])
  {}

  lemma InsertNew(m: State, k: nat)
    requires At(m, k, Inserting) && m.calls[k].ticket.Some? && m.calls[k].ticket.value.msgId !in m.tables.pending
    ensures Enabled(m, Insert(k))
    ensures Next(m, Insert(k)) ==
            m.(tables := m.tables.InsertPending(m.calls[k].ticket.value.msgId, m.calls[k].preimage, k),
               calls := m.calls[k := m.calls[k].(slot := Empty, pc := Enqueuing)])
  {}

  lemma EnqueueFits(m: State, k: nat)
    requires At(m, k, Enqueuing) && m.calls[k].ticket.Some?
    requires var ch := m.calls[k].ticket.value.channel; ch !in m.closed && |m.Queue(ch)| < CHANNEL_CAPACITY
    ensures Enabled(m, Enqueue(k))
    ensures var Ticket(_, msgId, ch) := m.calls[k].ticket.value;
            Next(m, Enqueue(k)) ==
            m.(queues := m.queues[ch := m.Queue(ch) + [Delivery(msgId, m.calls[k].preimage, m.calls[k].payload)]],
               calls := m.calls[k := m.calls[k].(pc := Waiting)])
  {}

  lemma Overwrites<K, V>(m: map<K, V>, k: K, x: V, y: V)
    ensures m[k := x][k := y] == m[k := y]
  {}

  lemma CanRoute(m: State, k: nat, id: Id, p: Preimage, payload: Bytes)
    requires k !in m.calls && Admits(m, id, p) && m.tables.nextId !in m.tables.pending
    requires p in m.tables.cache ==> m.tables.cache[p].expiresAt <= m.now
    requires |m.Queue(m.tables.devices[id].channel)| < CHANNEL_CAPACITY
    ensures CanDo(m, Routing(k, id, p, payload))
    ensures After(m, Routing(k, id, p, payload)) == Routed(m, k, id, p, payload)
  {
    var m1 := Next(m, Invoke(k, id, p, payload));
    CheckMisses(m1, k);
    var m2 := Next(m1, Check(k));
    AdmitSucceeds(m2, k);
    var m3 := Next(m2, Admit(k));
    InsertNew(m3, k);
    var m4 := Next(m3, Insert(k));
    EnqueueFits(m4, k);
    hide Enabled, Next;
    Overwrites(m.calls, k, m1.calls[k], m2.calls[k]);
    Overwrites(m.calls, k, m2.calls[k], m3.calls[k]);
    Overwrites(m.calls, k, m3.calls[k], m4.calls[k]);
    Overwrites(m.calls, k, m4.calls[k], m4.calls[k].(pc := Waiting));
    InTurn(m, Invoke(k, id, p, payload), Check(k), Admit(k), Insert(k), Enqueue(k));
  }

  lemma InTurn(m: State, e1: Event, e2: Event, e3: Event, e4: Event, e5: Event)
    requires Enabled(m, e1)
    requires var m1 := Next(m, e1);
             && Enabled(m1, e2)
             && var m2 := Next(m1, e2);
                && Enabled(m2, e3)
                && var m3 := Next(m2, e3);
                   Enabled(m3, e4) && Enabled(Next(m3, e4), e5)
    ensures CanDo(m, [e1, e2, e3, e4, e5])
    ensures After(m, [e1, e2, e3, e4, e5]) == Next(Next(Next(Next(Next(m, e1), e2), e3), e4), e5)
  {
    hide Enabled, Next;
    assert [] + [e1] == [e1] && [e1] + [e2] == [e1, e2] && [e1, e2] + [e3] == [e1, e2, e3];
    assert [e1, e2, e3] + [e4] == [e1, e2, e3, e4] && [e1, e2, e3, e4] + [e5] == [e1, e2, e3, e4, e5];
    CanDoMore(m, [], e1);
    CanDoMore(m, [e1], e2);
    CanDoMore(m, [e1, e2], e3);
    CanDoMore(m, [e1, e2, e3], e4);
    CanDoMore(m, [e1, e2, e3, e4], e5);
  }

  // ---------------------------------------------------------------------------
  // An acknowledgement
  // ---------------------------------------------------------------------------

  function Answering(a: nat, session: nat, msgId: u32, response: Bytes, k: nat): seq<Event> {
    [AckArrive(a, session, msgId, response), AckTake(a), AckStore(a), AckComplete(a), Receive(k)]
  }

  /** What an acknowledgement leaves behind when the send that waited for it has returned. */
  function AnsweredBy(m: State, a: nat, session: nat, msgId: u32, response: Bytes, k: nat): State
    requires k in m.calls && msgId in m.tables.pending
  {
    m.(tables := m.tables.(pending := m.tables.pending - {msgId},
                           cache := m.tables.cache[m.tables.pending[msgId].preimage :=
                                                     CachedResponse(response, m.now + CACHE_TTL)]),
       acks := m.acks[a := Ack(session, msgId, response, Finished)],
       calls := m.calls[k := m.calls[k].(slot := Full(response), pc := Returned(Wire.SEND_OK, response))])
  }

  lemma TakeFinds(m: State, a: nat)
    requires a in m.acks && m.acks[a].pc == Taking && m.acks[a].msgId in m.tables.pending
    ensures Enabled(m, AckTake(a))
    ensures var msgId := m.acks[a].msgId;
            Next(m, AckTake(a)) == m.(tables := m.tables.(pending := m.tables.pending - {msgId}),
                                      acks := m.acks[a := m.acks[a].(pc := Storing(m.tables.pending[msgId]))])
  {}

  lemma StoreCaches(m: State, a: nat)
    requires a in m.acks && m.acks[a].pc.Storing?
    ensures Enabled(m, AckStore(a))
    ensures var entry := m.acks[a].pc.entry;
            Next(m, AckStore(a)) == m.(tables := m.tables.StoreResponse(entry.preimage, m.acks[a].response, m.now),
                                       acks := m.acks[a := m.acks[a].(pc := Completing(entry.call))])
  {}

  lemma CompleteFills(m: State, a: nat, k: nat)
    requires a in m.acks && m.acks[a].pc == Completing(k) && k in m.calls
    ensures Enabled(m, AckComplete(a))
    ensures Next(m, AckComplete(a)) == m.(acks := m.acks[a := m.acks[a].(pc := Finished)],
                                          calls := m.calls[k := m.calls[k].(slot := Full(m.acks[a].response))])
  {}

  lemma ReceiveReturns(m: State, k: nat)
    requires At(m, k, Waiting) && m.calls[k].slot.Full?
    ensures Enabled(m, Receive(k))
    ensures Next(m, Receive(k)) ==
            m.(calls := m.calls[k := m.calls[k].(pc := Returned(Wire.SEND_OK, m.calls[k].slot.response))])
  {}

  /** Whichever session acknowledges the id of a waiting send first gives the send its result. */
  lemma CanAnswer(m: State, a: nat, session: nat, msgId: u32, response: Bytes, k: nat)
    requires a !in m.acks && At(m, k, Waiting) && msgId in m.tables.pending && m.tables.pending[msgId].call == k
    ensures CanDo(m, Answering(a, session, msgId, response, k))
    ensures After(m, Answering(a, session, msgId, response, k)) == AnsweredBy(m, a, session, msgId, response, k)
  {
    var m1 := Next(m, AckArrive(a, session, msgId, response));
    TakeFinds(m1, a);
    var m2 := Next(m1, AckTake(a));
    StoreCaches(m2, a);
    var m3 := Next(m2, AckStore(a));
    CompleteFills(m3, a, k);
    var m4 := Next(m3, AckComplete(a));
    ReceiveReturns(m4, k);
    var m5 := Next(m4, Receive(k));
    hide Enabled, Next;
    Overwrites(m.acks, a, m1.acks[a], m2.acks[a]);
    Overwrites(m.acks, a, m2.acks[a], m3.acks[a]);
    Overwrites(m.acks, a, m3.acks[a], m4.acks[a]);
    Overwrites(m.calls, k, m4.calls[k], m5.calls[k]);
    InTurn(m, AckArrive(a, session, msgId, response), AckTake(a), AckStore(a), AckComplete(a), Receive(k));
  }

  // ---------------------------------------------------------------------------
  // A send that the cache answers
  // ---------------------------------------------------------------------------

  /** A send with a preimage that the cache has a fresh response for gets that response, whoever sends it. */
  lemma Hit(m: State, k: nat, id: Id, p: Preimage, payload: Bytes)
    requires k !in m.calls && p in m.tables.cache && m.tables.cache[p].expiresAt > m.now
    ensures Enabled(m, Invoke(k, id, p, payload)) && Enabled(Next(m, Invoke(k, id, p, payload)), Check(k))
    ensures Next(Next(m, Invoke(k, id, p, payload)), Check(k)) ==
            m.(tables := m.tables.(cache := m.tables.cache - {p}),
               calls := m.calls[k := Call(id, p, payload, None, NoChannel, Returned(Wire.SEND_OK, m.tables.cache[p].response))])
  {
    Overwrites(m.calls, k, Call(id, p, payload, None, NoChannel, Checking),
               Call(id, p, payload, None, NoChannel, Returned(Wire.SEND_OK, m.tables.cache[p].response)));
  }

  // ---------------------------------------------------------------------------
  // What they can lead to
  // ---------------------------------------------------------------------------

  /**
   * Nobody checks who acknowledges: in every reachable state, any session can give a waiting
   * send that has no answer yet any result it likes, by acknowledging the send's id.
   */
  lemma AnyoneMayAnswer(m: State, a: nat, session: nat, response: Bytes, k: nat)
    requires Reachable(m) && a !in m.acks
    requires At(m, k, Waiting) && m.calls[k].slot == Empty && Handlers(m, k) == {}
    ensures m.calls[k].ticket.Some?
    ensures var es := Answering(a, session, m.calls[k].ticket.value.msgId, response, k);
            CanDo(m, es) && At(After(m, es), k, Returned(Wire.SEND_OK, response))
  {
    ReachableInv(m);
    Awaited(m, k);
    hide Inv, CanDo, After;
    CanAnswer(m, a, session, m.calls[k].ticket.value.msgId, response, k);
  }

  lemma Awaited(m: State, k: nat)
    requires At(m, k, Waiting) && m.calls[k].slot == Empty && Handlers(m, k) == {} && Inv(m)
    ensures InPending(m.calls, m.tables.pending, k)
  {
    forall a ensures !InHand(m.acks, a, k) {
      assert a !in Handlers(m, k);
    }
  }

  lemma {:induction false} CanDoReachable(m: State, es: seq<Event>)
    requires Reachable(m) && CanDo(m, es)
    ensures Reachable(After(m, es))
    decreases |es|
  {
    hide Enabled, Next, Reachable;
    if es != [] {
      ReachableStep(m, es[0]);
      CanDoReachable(Next(m, es[0]), es[1..]);
    }
  }

  lemma ReachableStep(m: State, e: Event)
    requires Reachable(m) && Enabled(m, e)
    ensures Reachable(Next(m, e))
  {
    hide Enabled, Next;
    var ms, es :| Run(ms, es) && m == ms[|es|];
    assert Run(ms + [Next(m, e)], es + [e]);
    assert (ms + [Next(m, e)])[|es + [e]|] == Next(m, e);
  }

  lemma FirstRegistration(id: Id, p: Preimage, channel: nat) returns (m: State)
    ensures Reachable(m) && m.calls == map[] && m.acks == map[] && m.queues == map[]
    ensures m.serials == 0 && m.now == 0 && m.closed == {}
    ensures m.tables == Tables(map[id := DeviceEntry({Sha256(p)}, channel)], map[], map[], 1)
  {
    var none: seq<Event> := [];
    assert Run([START], none) && START == [START][|none|];
    ReachableStep(START, Register(id, [Sha256(p)], [], channel));
    assert SetOf([Sha256(p)]) == {Sha256(p)};
    hide Reachable;
    m := Next(START, Register(id, [Sha256(p)], [], channel));
  }

  lemma FirstRouted(m: State, id: Id, p: Preimage, channel: nat, payload: Bytes)
    requires m.calls == map[] && m.acks == map[] && m.serials == 0 && m.now == 0 && m.closed == {} && m.queues == map[]
    requires m.tables == Tables(map[id := DeviceEntry({Sha256(p)}, channel)], map[], map[], 1)
    ensures Admits(m, id, p)
    ensures var m' := Routed(m, 1, id, p, payload);
            && m'.calls == map[1 := Call(id, p, payload, Some(Ticket(0, 1, channel)), Empty, Waiting)]
            && m'.acks == map[] && m'.serials == 1 && m'.now == 0
            && m'.tables.pending == map[1 := PendingSend(p, 1)] && m'.tables.cache == map[]
  {}

  /** One send and its answer, in a relay where nothing else has happened. */
  lemma FirstAnswer(id: Id, p: Preimage, channel: nat, payload: Bytes, reply: Bytes) returns (m: State)
    ensures Reachable(m) && m.serials == 1 && m.now == 0
    ensures m.calls == map[1 := Call(id, p, payload, Some(Ticket(0, 1, channel)), Full(reply), Returned(Wire.SEND_OK, reply))]
    ensures m.acks == map[0 := Ack(channel, 1, reply, Finished)]
    ensures m.tables.cache == map[p := CachedResponse(reply, CACHE_TTL)]
  {
    hide Reachable, Next, Enabled;
    var m0 := FirstRegistration(id, p, channel);
    FirstRouted(m0, id, p, channel, payload);
    CanRoute(m0, 1, id, p, payload);
    CanDoReachable(m0, Routing(1, id, p, payload));
    var m1 := Routed(m0, 1, id, p, payload);
    hide Routed, CanDo, After, Admits, Routing, Answering;
    CanAnswer(m1, 0, channel, 1, reply, 1);
    CanDoReachable(m1, Answering(0, channel, 1, reply, 1));
    m := AnsweredBy(m1, 0, channel, 1, reply, 1);
  }

  /**
   * Two senders with one preimage: the first is admitted and answered, and the second gets the
   * very same answer, although its message never leaves the relay.
   */
  lemma CacheAnswersBoth(id: Id, p: Preimage, channel: nat, payload1: Bytes, payload2: Bytes, reply: Bytes)
    returns (m: State)
    ensures Reachable(m) && m.serials == 1
    ensures m.calls.Keys == {1, 2} && m.calls[1].payload == payload1 && m.calls[2].payload == payload2
    ensures m.calls[1].preimage == p == m.calls[2].preimage
    ensures m.calls[1].pc == Returned(Wire.SEND_OK, reply) == m.calls[2].pc
    ensures m.acks == map[0 := Ack(channel, 1, reply, Finished)]
  {
    var m2 := FirstAnswer(id, p, channel, payload1, reply);
    Hit(m2, 2, id, p, payload2);
    ReachableStep(m2, Invoke(2, id, p, payload2));
    ReachableStep(Next(m2, Invoke(2, id, p, payload2)), Check(2));
    hide Reachable, Next, Enabled;
    m := Next(Next(m2, Invoke(2, id, p, payload2)), Check(2));
  }
}
