/**
 * A first send can be refused: from every starting state the device reconnects, answers a command over the
 * new connection, and then the relay handles the I_AM of the connection that the device has left.
 */
module Refusal {
  import opened Types
  import opened Router
  import opened Device
  import opened Nodes
  import opened System
  import Generations
  import History
  import Ownership
  import Relay
  import Schedules
  import Staleness
  import Wire

  lemma TwoInTurn(json: Bytes -> bool, w: World, e1: Event, e2: Event)
    requires Enabled(json, w, e1) && Enabled(json, Next(json, w, e1), e2)
    ensures CanDo(json, w, [e1, e2]) && After(json, w, [e1, e2]) == Next(json, Next(json, w, e1), e2)
  {
    hide Enabled, Next;
    CanDoOne(json, w, e1);
    CanDoMore(json, w, [e1], e2);
    assert [e1] + [e2] == [e1, e2];
  }

  // ---------------------------------------------------------------------------
  // The device reconnects
  // ---------------------------------------------------------------------------

  /** The device knows which commits it has to list. */
  ghost predicate Lists(w: World, commits: seq<Commit>) {
    forall c :: c in commits <==> c.preimage in w.node.records.Live()
  }

  function Reconnecting(s1: nat, s2: nat, commits: seq<Commit>): seq<Event> {
    [Connect(s1, commits), Disconnect] + [Connect(s2, commits), Process(s2, 0)]
  }

  /** Connected over `s2`, and the I_AM that went out over `s1` has not reached the relay. */
  ghost predicate Reconnected(w: World, x: World, s1: nat, s2: nat, commits: seq<Commit>) {
    && x == w.(relay := x.relay, links := map[s1 := Link([Hail(commits)], []), s2 := Link([], [])], conn := Some(s2))
    && x.relay.tables == Tables(map[w.nodeId := DeviceEntry(SetOf(commits), s2)], map[], map[], 1)
    && x.relay.calls == map[] && x.relay.acks == map[] && x.relay.queues == map[] && x.relay.closed == {}
    && x.relay.now == 0 && x.relay.serials == 0
  }

  lemma CurListed(w: World, commits: seq<Commit>)
    requires Init(w) && Lists(w, commits)
    ensures Ownership.Inv(w.node) && Sha256(w.cur) in commits
    ensures forall p :: Sha256(p) in commits ==> p in w.node.drawn
  {
    var ms, es :| History.Run(ms, es) && w.node == ms[|es|];
    Ownership.RunKeepsInv(ms, es, |es|);
    Ownership.IssuedIsLive(w.node.records, w.clientId, w.cur);
    hide Records.Live, Records.Owned, History.Run;
  }

  lemma Connects(json: Bytes -> bool, w: World, s: nat, commits: seq<Commit>)
    requires w.conn.None? && Lists(w, commits) && s !in w.links
    requires w.relay == Relay.START
    ensures Enabled(json, w, Connect(s, commits))
    ensures Next(json, w, Connect(s, commits)) == w.(links := w.links[s := Link([Hail(commits)], [])], conn := Some(s))
  {
    hide Records.Live;
  }

  /** A session handles an I_AM. */
  lemma Registers(json: Bytes -> bool, w: World, s: nat, a: nat, commits: seq<Commit>)
    requires w.Open(s) && a !in w.relay.acks && w.links[s] == Link([Hail(commits)], [])
    ensures Enabled(json, w, Process(s, a))
    ensures Next(json, w, Process(s, a)) ==
            w.(relay := Relay.Next(w.relay, Relay.Register(w.nodeId, commits, [], s)),
               links := w.links[s := Link([], [])])
  {
    hide Relay.Next;
    assert [Hail(commits)][1..] == [];
  }

  lemma ComesAndGoes(json: Bytes -> bool, w: World, s: nat, commits: seq<Commit>)
    requires w.conn == None && Lists(w, commits) && w.links == map[] && w.relay == Relay.START
    ensures CanDo(json, w, [Connect(s, commits), Disconnect])
    ensures After(json, w, [Connect(s, commits), Disconnect]) == w.(links := map[s := Link([Hail(commits)], [])])
  {
    hide Lists, Relay.Next, Relay.Enabled;
    Connects(json, w, s, commits);
    var w1 := Next(json, w, Connect(s, commits));
    assert Enabled(json, w1, Disconnect) && Next(json, w1, Disconnect) == w1.(conn := None);
    hide Next, Enabled;
    TwoInTurn(json, w, Connect(s, commits), Disconnect);
  }

  lemma Greets(json: Bytes -> bool, w: World, s: nat, commits: seq<Commit>)
    requires w.conn == None && Lists(w, commits) && s !in w.links && w.relay == Relay.START && Sha256(w.cur) in commits
    ensures CanDo(json, w, [Connect(s, commits), Process(s, 0)])
    ensures After(json, w, [Connect(s, commits), Process(s, 0)]) ==
            w.(relay := Relay.Next(w.relay, Relay.Register(w.nodeId, commits, [], s)),
               links := w.links[s := Link([], [])], conn := Some(s))
  {
    hide Lists, Next, Enabled, Relay.Next, Relay.Enabled;
    Connects(json, w, s, commits);
    Registers(json, Next(json, w, Connect(s, commits)), s, 0, commits);
    TwoInTurn(json, w, Connect(s, commits), Process(s, 0));
  }

  lemma RegistersFirst(w: World, x: World, s1: nat, s2: nat, commits: seq<Commit>)
    requires w.relay == Relay.START && s1 != s2
    requires x == w.(relay := Relay.Next(w.relay, Relay.Register(w.nodeId, commits, [], s2)),
                     links := map[s1 := Link([Hail(commits)], [])][s2 := Link([], [])], conn := Some(s2))
    ensures Reconnected(w, x, s1, s2, commits)
  {}

  lemma CanReconnect(json: Bytes -> bool, w: World, s1: nat, s2: nat, commits: seq<Commit>)
    requires Init(w) && s1 != s2 && Lists(w, commits)
    ensures CanDo(json, w, Reconnecting(s1, s2, commits))
    ensures Reconnected(w, After(json, w, Reconnecting(s1, s2, commits)), s1, s2, commits)
  {
    CurListed(w, commits);
    assert w.relay == Relay.START && w.links == map[] && w.conn == None;
    var w2 := w.(links := map[s1 := Link([Hail(commits)], [])]);
    assert Lists(w2, commits);
    hide Init, Next, Enabled, Lists, Ownership.Inv, Relay.Next, Relay.Enabled, Reconnected, CanDo, After;
    ComesAndGoes(json, w, s1, commits);
    Greets(json, w2, s2, commits);
    RegistersFirst(w, After(json, w2, [Connect(s2, commits), Process(s2, 0)]), s1, s2, commits);
    CanDoBoth(json, w, [Connect(s1, commits), Disconnect], [Connect(s2, commits), Process(s2, 0)]);
  }

  // ---------------------------------------------------------------------------
  // A command is sent, handled and answered
  // ---------------------------------------------------------------------------

  /** The client's send reaches the relay. */
  lemma Invokes(json: Bytes -> bool, w: World, k: nat, p: Preimage, payload: Bytes)
    requires w.waiting.None? && w.Their() == Some(p) && w.outbox == map[] && k !in w.relay.calls && !IsHandshake(payload)
    ensures CanDo(json, w, [ClientSend(k, payload), ReceiveSend(k)])
    ensures After(json, w, [ClientSend(k, payload), ReceiveSend(k)]) ==
            w.(waiting := Some(k), relay := Relay.Next(w.relay, Relay.Invoke(k, w.nodeId, p, payload)))
  {
    hide Relay.Next, IsHandshake;
    var w1 := Next(json, w, ClientSend(k, payload));
    assert Enabled(json, w, ClientSend(k, payload)) && Enabled(json, w1, ReceiveSend(k));
    assert w1.outbox - {k} == map[];
    assert Next(json, w1, ReceiveSend(k)) ==
           w.(waiting := Some(k), relay := Relay.Next(w.relay, Relay.Invoke(k, w.nodeId, p, payload)));
    hide Next, Enabled, CanDo, After;
    TwoInTurn(json, w, ClientSend(k, payload), ReceiveSend(k));
  }

  function Delivering(k: nat, payload: Bytes): seq<Event> {
    [ClientSend(k, payload), ReceiveSend(k)] + Lifted([Relay.Check(k), Relay.Admit(k), Relay.Insert(k), Relay.Enqueue(k)])
  }

  lemma CanSend(json: Bytes -> bool, w: World, k: nat, p: Preimage, payload: Bytes)
    requires w.waiting.None? && w.Their() == Some(p) && w.outbox == map[] && k !in w.relay.calls && !IsHandshake(payload)
    requires Schedules.Admits(w.relay, w.nodeId, p) && w.relay.tables.nextId !in w.relay.tables.pending
    requires p !in w.relay.tables.cache && w.relay.Queue(w.relay.tables.devices[w.nodeId].channel) == []
    ensures CanDo(json, w, Delivering(k, payload))
    ensures After(json, w, Delivering(k, payload)) ==
            w.(waiting := Some(k), relay := Schedules.Routed(w.relay, k, w.nodeId, p, payload))
  {
    var rest := [Relay.Check(k), Relay.Admit(k), Relay.Insert(k), Relay.Enqueue(k)];
    Schedules.CanRoute(w.relay, k, w.nodeId, p, payload);
    assert Schedules.Routing(k, w.nodeId, p, payload)[1..] == rest;
    assert forall e :: e in rest ==> Internal(e);
    hide Next, Enabled, CanDo, After, Relay.Next, Relay.Enabled, Schedules.Routed, IsHandshake, Lifted;
    Invokes(json, w, k, p, payload);
    var w1 := w.(waiting := Some(k), relay := Relay.Next(w.relay, Relay.Invoke(k, w.nodeId, p, payload)));
    CanLift(json, w1, rest);
    CanDoBoth(json, w, [ClientSend(k, payload), ReceiveSend(k)], Lifted(rest));
  }

  /** The session hands the only message of its channel to the device. */
  lemma Forwards(json: Bytes -> bool, w: World, s: nat, d: Relay.Delivery)
    requires w.Open(s) && w.links[s] == Link([], []) && w.relay.Queue(s) == [d]
    ensures CanDo(json, w, [Forward(s)])
    ensures After(json, w, [Forward(s)]) ==
            w.(relay := w.relay.(queues := w.relay.queues[s := []]), links := w.links[s := Link([], [d])])
  {
    assert [d][1..] == [] && [] + [d] == [d];
    assert Enabled(json, w, Forward(s));
    assert Next(json, w, Forward(s)).relay == w.relay.(queues := w.relay.queues[s := []]);
    hide CanDo, After, Relay.Next;
    CanDoOne(json, w, Forward(s));
  }

  /** What the device does with a message under the client's preimage that is no JSON text, or no request. */
  function Handling(w: World, draws: Draws, doc: Bytes, now: nat): Event
    requires w.clientId in w.node.records.peers
  {
    Handle(FromPeer(w.clientId, w.node.records.peers[w.clientId]), None, None, draws, doc, now)
  }

  /** Nothing of this has been drawn before. */
  predicate FreshDraws(m: History.Machine, draws: Draws) {
    draws.invite !in m.drawn && draws.renewal !in m.drawn && draws.invite != draws.renewal
  }

  lemma ClientLooksUp(r: Records, id: Id, p: Preimage)
    requires r.Owned() && id in r.peers && r.peers[id].issued == [p]
    ensures r.LooksUp(p, FromPeer(id, r.peers[id]))
  {
    assert p in r.ByPeer()[id];
    if p in r.invites {
      assert p in r.ByInvite()[p];
      Generations.HeldBy(r.ByInvite(), p, p);
      Generations.HeldBy(r.ByPeer(), id, p);
    }
  }

  lemma MayHandle(w: World, d: Relay.Delivery, draws: Draws, doc: Bytes, now: nat)
    requires Ownership.Inv(w.node) && w.clientId in w.node.records.peers && d.preimage == w.cur
    requires w.node.records.peers[w.clientId].issued == [w.cur] && FreshDraws(w.node, draws)
    ensures History.Enabled(w.node, CommandOf(d, Handling(w, draws, doc, now)))
  {
    ClientLooksUp(w.node.records, w.clientId, w.cur);
    hide Records.LooksUp, Ownership.Inv;
  }

  lemma Handles(json: Bytes -> bool, w: World, s: nat, d: Relay.Delivery, draws: Draws, doc: Bytes, now: nat)
    requires w.conn == Some(s) && w.Open(s) && w.links[s] == Link([], [d]) && d.preimage == w.cur
    requires Ownership.Inv(w.node) && w.clientId in w.node.records.peers
    requires w.node.records.peers[w.clientId].issued == [w.cur]
    requires FreshDraws(w.node, draws) && doc != [] && json(doc)
    ensures var e := Handling(w, draws, doc, now);
            && CanDo(json, w, [e])
            && After(json, w, [e]).cur == draws.renewal
            && After(json, w, [e]) ==
               w.(node := After(json, w, [e]).node, past := w.past + [w.cur], cur := draws.renewal,
                  links := w.links[s := Link([Out(UpdateFrame([Sha256(draws.renewal)])),
                                              Out(AckFrame(d.msgId, doc + draws.renewal.bytes))], [])])
  {
    var e := Handling(w, draws, doc, now);
    MayHandle(w, d, draws, doc, now);
    hide Records.LooksUp, Ownership.Inv, History.Next, History.Enabled, CommandOutcome, FreshDraws, Generations.Answers;
    Generations.CommandRenews(w.node, w.clientId, w.cur, e);
    assert w.links[s].down[0] == d;
    Generations.HandleLinks(w, e, s, d);
    HandlesNext(json, w, e, d);
    hide Enabled, Next, DoHandle, CanDo, After;
    HandledLinks(w, DoHandle(w, e), s, d.msgId, doc);
    CanDoOne(json, w, e);
  }

  lemma HandlesNext(json: Bytes -> bool, w: World, e: Event, d: Relay.Delivery)
    requires e.Handle? && w.conn.Some? && w.conn.value in w.links && w.links[w.conn.value].down == [d]
    requires History.Enabled(w.node, CommandOf(d, e)) && e.doc != [] && json(e.doc)
    ensures Enabled(json, w, e) && Next(json, w, e) == DoHandle(w, e)
  {
    hide History.Enabled, DoHandle;
  }

  lemma HandledLinks(w: World, w': World, s: nat, msgId: u32, doc: Bytes)
    requires Generations.Answers(w, w', s, msgId, doc) && w.Open(s)
    ensures w'.past == w.past + [w.cur]
    ensures w'.links == w.links[s := Link([Out(UpdateFrame([Sha256(w'.cur)])), Out(AckFrame(msgId, doc + w'.cur.bytes))], [])]
  {}

  /** A session handles an UPDATE_COMMITS of the live preimage. */
  lemma Updates(json: Bytes -> bool, w: World, s: nat, a: nat, ack: UpFrame)
    requires w.Open(s) && a !in w.relay.acks && w.links[s] == Link([Out(UpdateFrame([Sha256(w.cur)])), ack], [])
    ensures CanDo(json, w, [Process(s, a)])
    ensures After(json, w, [Process(s, a)]) ==
            w.(relay := Relay.Next(w.relay, Relay.AddCommits(w.nodeId, [Sha256(w.cur)])),
               links := w.links[s := Link([ack], [])])
  {
    hide Relay.Next;
    assert [Out(UpdateFrame([Sha256(w.cur)])), ack][1..] == [ack];
    CanDoOne(json, w, Process(s, a));
    hide CanDo, After;
  }

  /** An acknowledgement arrives at the relay. */
  lemma Acks(json: Bytes -> bool, w: World, s: nat, a: nat, msgId: u32, response: Bytes)
    requires w.Open(s) && a !in w.relay.acks && w.links[s] == Link([Out(AckFrame(msgId, response))], [])
    ensures CanDo(json, w, [Process(s, a)])
    ensures After(json, w, [Process(s, a)]) ==
            w.(relay := Relay.Next(w.relay, Relay.AckArrive(a, s, msgId, response)),
               links := w.links[s := Link([], [])], answers := w.answers[a := Latest(w)])
  {
    hide Relay.Next;
    assert [Out(AckFrame(msgId, response))][1..] == [];
    CanDoOne(json, w, Process(s, a));
    hide CanDo, After;
  }

  function Acknowledging(s: nat, a: nat, k: nat): seq<Event> {
    [Process(s, a)] + Lifted([Relay.AckTake(a), Relay.AckStore(a), Relay.AckComplete(a), Relay.Receive(k)])
  }

  lemma CanAcknowledge(json: Bytes -> bool, w: World, s: nat, a: nat, msgId: u32, response: Bytes, k: nat)
    requires w.Open(s) && a !in w.relay.acks && w.links[s] == Link([Out(AckFrame(msgId, response))], [])
    requires Relay.At(w.relay, k, Relay.Waiting)
    requires msgId in w.relay.tables.pending && w.relay.tables.pending[msgId].call == k
    ensures CanDo(json, w, Acknowledging(s, a, k))
    ensures After(json, w, Acknowledging(s, a, k)) ==
            w.(relay := Schedules.AnsweredBy(w.relay, a, s, msgId, response, k),
               links := w.links[s := Link([], [])], answers := w.answers[a := Latest(w)])
  {
    var rest := [Relay.AckTake(a), Relay.AckStore(a), Relay.AckComplete(a), Relay.Receive(k)];
    Schedules.CanAnswer(w.relay, a, s, msgId, response, k);
    assert Schedules.Answering(a, s, msgId, response, k)[1..] == rest;
    assert forall e :: e in rest ==> Internal(e);
    hide Next, Enabled, CanDo, After, Relay.Next, Relay.Enabled, Schedules.AnsweredBy, Lifted;
    Acks(json, w, s, a, msgId, response);
    CanLift(json, After(json, w, [Process(s, a)]), rest);
    CanDoBoth(json, w, [Process(s, a)], Lifted(rest));
  }

  /** The client learns the next preimage from a response. */
  lemma Learns(json: Bytes -> bool, w: World, k: nat, doc: Bytes, p: Preimage, now: nat)
    requires w.waiting == Some(k) && Relay.At(w.relay, k, Relay.Returned(Wire.SEND_OK, doc + p.bytes))
    requires doc != [] && json(doc) && !json(doc + p.bytes) && w.Their().Some?
    ensures CanDo(json, w, [ClientResult(now)])
    ensures var w' := After(json, w, [ClientResult(now)]);
            w' == w.(client := w'.client, waiting := None) && w'.Their() == Some(p)
  {
    var r := doc + p.bytes;
    assert r[..|r| - 32] == doc && r[|r| - 32..] == p.bytes;
    assert Learned(json, r) == Some(p);
    hide Learned;
    CanDoOne(json, w, ClientResult(now));
    hide CanDo, After;
  }

  /** The answer to the first send is on its way. */
  ghost predicate Served(w: World, x: World, s1: nat, s2: nat, commits: seq<Commit>, payload: Bytes, doc: Bytes,
                         next: Preimage)
  {
    && x.nodeId == w.nodeId && x.client == w.client && x.outbox == map[] && x.waiting == Some(1)
    && x.past == w.past + [w.cur] && x.cur == next && s1 != s2
    && x.links == map[s1 := Link([Hail(commits)], []),
                      s2 := Link([Out(UpdateFrame([Sha256(next)])), Out(AckFrame(1, doc + next.bytes))], [])]
    && x.relay.tables == Tables(map[w.nodeId := DeviceEntry(SetOf(commits) - {Sha256(w.cur)}, s2)], map[],
                                map[1 := PendingSend(w.cur, 1)], 2)
    && x.relay.calls == map[1 := Relay.Call(w.nodeId, w.cur, payload, Some(Relay.Ticket(0, 1, s2)), Relay.Empty,
                                            Relay.Waiting)]
    && x.relay.acks == map[] && x.relay.closed == {} && x.relay.serials == 1
  }

  lemma RoutedFirst(w: World, x: World, s1: nat, s2: nat, commits: seq<Commit>, payload: Bytes)
    requires Reconnected(w, x, s1, s2, commits) && Sha256(w.cur) in commits
    ensures Schedules.Admits(x.relay, w.nodeId, w.cur) && x.relay.tables.nextId == 1
    ensures var m := Schedules.Routed(x.relay, 1, w.nodeId, w.cur, payload);
            && m.tables == Tables(map[w.nodeId := DeviceEntry(SetOf(commits) - {Sha256(w.cur)}, s2)], map[],
                                  map[1 := PendingSend(w.cur, 1)], 2)
            && m.calls == map[1 := Relay.Call(w.nodeId, w.cur, payload, Some(Relay.Ticket(0, 1, s2)), Relay.Empty,
                                              Relay.Waiting)]
            && m.Queue(s2) == [Relay.Delivery(1, w.cur, payload)]
            && m.acks == map[] && m.closed == {} && m.serials == 1
  {
    assert [] + [Relay.Delivery(1, w.cur, payload)] == [Relay.Delivery(1, w.cur, payload)];
  }

  lemma ForwardsAndHandles(json: Bytes -> bool, w: World, s: nat, d: Relay.Delivery, draws: Draws, doc: Bytes, now: nat)
    requires w.conn == Some(s) && w.Open(s) && w.links[s] == Link([], []) && w.relay.Queue(s) == [d] && d.preimage == w.cur
    requires Ownership.Inv(w.node) && w.clientId in w.node.records.peers
    requires w.node.records.peers[w.clientId].issued == [w.cur]
    requires FreshDraws(w.node, draws) && doc != [] && json(doc)
    ensures var es := [Forward(s)] + [Handling(w, draws, doc, now)];
            && CanDo(json, w, es)
            && After(json, w, es) ==
               w.(node := After(json, w, es).node, past := w.past + [w.cur], cur := draws.renewal,
                  relay := w.relay.(queues := w.relay.queues[s := []]),
                  links := w.links[s := Link([Out(UpdateFrame([Sha256(draws.renewal)])),
                                              Out(AckFrame(d.msgId, doc + draws.renewal.bytes))], [])])
  {
    hide FreshDraws, Ownership.Inv, Next, Enabled, CanDo, After;
    Forwards(json, w, s, d);
    Handles(json, After(json, w, [Forward(s)]), s, d, draws, doc, now);
    CanDoBoth(json, w, [Forward(s)], [Handling(w, draws, doc, now)]);
  }

  lemma Handlings(w: World, x: World, draws: Draws, doc: Bytes, now: nat)
    requires x.clientId == w.clientId && x.node == w.node && w.clientId in w.node.records.peers
    ensures Handling(x, draws, doc, now) == Handling(w, draws, doc, now)
  {}

  lemma SentFirst(w: World, x: World, x1: World, s1: nat, s2: nat, commits: seq<Commit>, d: Relay.Delivery)
    requires Init(w) && s1 != s2 && Reconnected(w, x, s1, s2, commits)
    requires x1 == x.(waiting := Some(1), relay := x1.relay) && x1.relay.closed == {} && x1.relay.Queue(s2) == [d]
    ensures x.waiting.None? && x.Their() == Some(w.cur) && x.outbox == map[] && 1 !in x.relay.calls
    ensures x.nodeId == w.nodeId && x.relay.tables.nextId !in x.relay.tables.pending && w.cur !in x.relay.tables.cache
    ensures w.nodeId in x.relay.tables.devices && x.relay.Queue(x.relay.tables.devices[w.nodeId].channel) == []
    ensures x1.conn == Some(s2) && x1.Open(s2) && x1.links[s2] == Link([], [])
    ensures x1.node == w.node && x1.clientId == w.clientId && x1.cur == w.cur && w.clientId in w.node.records.peers
    ensures w.node.records.peers[w.clientId].issued == [w.cur]
  {
    hide History.Reachable, SetOf;
  }

  lemma ServedFirst(w: World, x: World, y: World, s1: nat, s2: nat, commits: seq<Commit>, payload: Bytes, doc: Bytes,
                    next: Preimage)
    requires Init(w) && s1 != s2 && Sha256(w.cur) in commits && Reconnected(w, x, s1, s2, commits)
    requires Schedules.Admits(x.relay, w.nodeId, w.cur)
    requires var m := Schedules.Routed(x.relay, 1, w.nodeId, w.cur, payload);
             y == x.(node := y.node, past := w.past + [w.cur], cur := next, waiting := Some(1),
                     relay := m.(queues := m.queues[s2 := []]),
                     links := x.links[s2 := Link([Out(UpdateFrame([Sha256(next)])), Out(AckFrame(1, doc + next.bytes))], [])])
    ensures Served(w, y, s1, s2, commits, payload, doc, next)
  {
    RoutedFirst(w, x, s1, s2, commits, payload);
    hide History.Reachable, SetOf, Schedules.Routed, Schedules.Admits;
  }

  function Serving(w: World, s: nat, payload: Bytes, draws: Draws, doc: Bytes, now: nat): seq<Event>
    requires w.clientId in w.node.records.peers
  {
    Delivering(1, payload) + ([Forward(s)] + [Handling(w, draws, doc, now)])
  }

  lemma CanServe(json: Bytes -> bool, w: World, x: World, s1: nat, s2: nat, commits: seq<Commit>, payload: Bytes,
                 draws: Draws, doc: Bytes, now: nat)
    requires Init(w) && s1 != s2 && Lists(w, commits) && Reconnected(w, x, s1, s2, commits)
    requires !IsHandshake(payload) && FreshDraws(w.node, draws) && doc != [] && json(doc)
    ensures CanDo(json, x, Serving(w, s2, payload, draws, doc, now))
    ensures Served(w, After(json, x, Serving(w, s2, payload, draws, doc, now)), s1, s2, commits, payload, doc, draws.renewal)
  {
    CurListed(w, commits);
    RoutedFirst(w, x, s1, s2, commits, payload);
    var d := Relay.Delivery(1, w.cur, payload);
    var x1 := x.(waiting := Some(1), relay := Schedules.Routed(x.relay, 1, w.nodeId, w.cur, payload));
    SentFirst(w, x, x1, s1, s2, commits, d);
    hide IsHandshake, Lists, FreshDraws, Ownership.Inv, Next, Enabled, CanDo, After, Delivering, Schedules.Routed, Served,
         Schedules.Admits, World.Their, World.Open, Handling, Init, Reconnected, Relay.State.Queue;
    CanSend(json, x, 1, w.cur, payload);
    ForwardsAndHandles(json, x1, s2, d, draws, doc, now);
    assert Handling(x1, draws, doc, now) == Handling(w, draws, doc, now) by { Handlings(w, x1, draws, doc, now); }
    CanDoBoth(json, x, Delivering(1, payload), [Forward(s2)] + [Handling(w, draws, doc, now)]);
    ServedFirst(w, x, After(json, x1, [Forward(s2)] + [Handling(w, draws, doc, now)]), s1, s2, commits, payload, doc,
                draws.renewal);
  }

  // ---------------------------------------------------------------------------
  // The old I_AM arrives, and the next send is refused
  // ---------------------------------------------------------------------------

  /** The client has learned the live preimage, and the old I_AM has overwritten the entry that listed it. */
  ghost predicate Lost(w: World, x: World, s1: nat, commits: seq<Commit>, next: Preimage) {
    && x.nodeId == w.nodeId && x.outbox == map[] && x.waiting == None && x.cur == next && x.Their() == Some(next)
    && x.relay.tables.devices == map[w.nodeId := DeviceEntry(SetOf(commits), s1)] && x.relay.closed == {}
    && x.relay.serials == 1 && x.relay.calls.Keys == {1} && x.relay.calls[1].preimage == w.cur
    && x.relay.tables.cache.Keys == {w.cur}
  }

  /** The client's result comes in just before the old I_AM. */
  lemma LearnsAndLoses(json: Bytes -> bool, w: World, k: nat, doc: Bytes, p: Preimage, now: nat, s: nat, a: nat,
                       commits: seq<Commit>)
    requires w.waiting == Some(k) && Relay.At(w.relay, k, Relay.Returned(Wire.SEND_OK, doc + p.bytes))
    requires doc != [] && json(doc) && !json(doc + p.bytes) && w.Their().Some?
    requires w.Open(s) && a !in w.relay.acks && w.links[s] == Link([Hail(commits)], [])
    ensures var es := [ClientResult(now)] + [Process(s, a)];
            && CanDo(json, w, es)
            && After(json, w, es) ==
               w.(client := After(json, w, es).client, waiting := None,
                  relay := Relay.Next(w.relay, Relay.Register(w.nodeId, commits, [], s)),
                  links := w.links[s := Link([], [])])
            && After(json, w, es).Their() == Some(p)
  {
    hide Next, Enabled, CanDo, After, Relay.Next, Learned;
    Learns(json, w, k, doc, p, now);
    var w1 := After(json, w, [ClientResult(now)]);
    Registers(json, w1, s, a, commits);
    CanDoOne(json, w1, Process(s, a));
    CanDoBoth(json, w, [ClientResult(now)], [Process(s, a)]);
  }

  function Learning(s1: nat, s2: nat, now: nat): seq<Event> {
    [Process(s2, 0)] + (Acknowledging(s2, 0, 1) + ([ClientResult(now)] + [Process(s1, 1)]))
  }

  /** What the relay does meanwhile. */
  lemma RelayLearns(m: Relay.State, id: Id, p: Preimage, next: Preimage, s1: nat, s2: nat, commits: seq<Commit>, r: Bytes)
    requires id in m.tables.devices && m.tables.cache == map[] && m.tables.pending == map[1 := PendingSend(p, 1)]
    requires m.calls.Keys == {1} && m.calls[1].pc == Relay.Waiting && m.calls[1].preimage == p && m.tables.devices.Keys == {id}
    requires m.acks == map[] && m.closed == {}
    ensures var m1 := Relay.Next(m, Relay.AddCommits(id, [Sha256(next)]));
            && Relay.At(m1, 1, Relay.Waiting) && m1.tables.pending == m.tables.pending && m1.acks == map[] && m1.closed == {}
            && var m2 := Schedules.AnsweredBy(m1, 0, s2, 1, r, 1);
               && Relay.At(m2, 1, Relay.Returned(Wire.SEND_OK, r)) && m2.acks.Keys == {0} && m2.closed == {}
               && var m3 := Relay.Next(m2, Relay.Register(id, commits, [], s1));
                  && m3.tables.devices == map[id := DeviceEntry(SetOf(commits), s1)] && m3.closed == {}
                  && m3.serials == m.serials && m3.calls.Keys == {1} && m3.calls[1].preimage == p
                  && m3.tables.cache.Keys == {p}
  {}

  lemma CanLearn(json: Bytes -> bool, w: World, x: World, s1: nat, s2: nat, commits: seq<Commit>, payload: Bytes,
                 doc: Bytes, next: Preimage, now: nat)
    requires Served(w, x, s1, s2, commits, payload, doc, next) && w.Their().Some?
    requires doc != [] && json(doc) && !json(doc + next.bytes)
    ensures CanDo(json, x, Learning(s1, s2, now))
    ensures Lost(w, After(json, x, Learning(s1, s2, now)), s1, commits, next)
  {
    hide Next, Enabled, CanDo, After, Acknowledging, Relay.Next, Schedules.AnsweredBy, SetOf;
    var r := doc + next.bytes;
    RelayLearns(x.relay, w.nodeId, w.cur, next, s1, s2, commits, r);
    Updates(json, x, s2, 0, Out(AckFrame(1, r)));
    var x1 := After(json, x, [Process(s2, 0)]);
    CanAcknowledge(json, x1, s2, 0, 1, r, 1);
    var x2 := After(json, x1, Acknowledging(s2, 0, 1));
    LearnsAndLoses(json, x2, 1, doc, next, now, s1, 1, commits);
    CanDoBoth(json, x1, Acknowledging(s2, 0, 1), [ClientResult(now)] + [Process(s1, 1)]);
    CanDoBoth(json, x, [Process(s2, 0)], Acknowledging(s2, 0, 1) + ([ClientResult(now)] + [Process(s1, 1)]));
  }

  /** About to be refused: the first admission under the live preimage, which the device's entry does not list. */
  ghost predicate Refused(json: Bytes -> bool, y: World) {
    && 2 in y.relay.calls && y.relay.calls[2].preimage == y.cur && Staleness.Unadmitted(y.relay, y.cur)
    && y.relay.serials == 1 && Enabled(json, y, RelayStep(Relay.Admit(2)))
    && Relay.At(Next(json, y, RelayStep(Relay.Admit(2))).relay, 2, Relay.Returned(Wire.SEND_ERR_INVALID_PREIMAGE, []))
  }

  function Retrying(payload: Bytes): seq<Event> {
    [ClientSend(2, payload), ReceiveSend(2)] + [RelayStep(Relay.Check(2))]
  }

  /** The relay's state when it has looked into the cache for the second send. */
  function Missed(m: Relay.State, id: Id, p: Preimage, payload: Bytes): Relay.State
    requires 2 !in m.calls
  {
    Relay.Next(Relay.Next(m, Relay.Invoke(2, id, p, payload)), Relay.Check(2))
  }

  lemma Retries(json: Bytes -> bool, w: World, p: Preimage, payload: Bytes)
    requires w.waiting.None? && w.Their() == Some(p) && w.outbox == map[] && 2 !in w.relay.calls && !IsHandshake(payload)
    ensures CanDo(json, w, Retrying(payload))
    ensures After(json, w, Retrying(payload)) == w.(waiting := Some(2), relay := Missed(w.relay, w.nodeId, p, payload))
  {
    assert Relay.Enabled(Relay.Next(w.relay, Relay.Invoke(2, w.nodeId, p, payload)), Relay.Check(2));
    hide CanDo, After, Relay.Next, Relay.Enabled, IsHandshake;
    Invokes(json, w, 2, p, payload);
    CanDoMore(json, w, [ClientSend(2, payload), ReceiveSend(2)], RelayStep(Relay.Check(2)));
  }

  lemma MissedRefused(m: Relay.State, id: Id, p: Preimage, payload: Bytes)
    requires 2 !in m.calls && p !in m.tables.cache && id in m.tables.devices
    requires m.tables.devices[id].channel !in m.closed && Sha256(p) !in m.tables.devices[id].commits
    requires forall j :: j in m.calls ==> m.calls[j].preimage != p
    ensures var m2 := Missed(m, id, p, payload);
            && Relay.Enabled(m2, Relay.Admit(2)) && m2.calls[2].preimage == p && Staleness.Unadmitted(m2, p)
            && m2.serials == m.serials
            && Relay.At(Relay.Next(m2, Relay.Admit(2)), 2, Relay.Returned(Wire.SEND_ERR_INVALID_PREIMAGE, []))
  {}

  lemma AdmitsNext(json: Bytes -> bool, y: World)
    requires Relay.Enabled(y.relay, Relay.Admit(2))
    ensures Enabled(json, y, RelayStep(Relay.Admit(2)))
    ensures Next(json, y, RelayStep(Relay.Admit(2))).relay == Relay.Next(y.relay, Relay.Admit(2))
  {
    hide Relay.Enabled, Relay.Next;
  }

  /** The next send gets as far as its admission, and that refuses it. */
  lemma CanBeRefused(json: Bytes -> bool, w: World, x: World, s1: nat, commits: seq<Commit>, next: Preimage, payload: Bytes)
    requires Lost(w, x, s1, commits, next) && next != w.cur && Sha256(next) !in commits && !IsHandshake(payload)
    ensures CanDo(json, x, Retrying(payload)) && Refused(json, After(json, x, Retrying(payload)))
  {
    MissedRefused(x.relay, x.nodeId, next, payload);
    hide CanDo, After, Relay.Next, Relay.Enabled, IsHandshake, Staleness.Unadmitted, Missed, Retrying, Enabled, Next;
    Retries(json, x, next, payload);
    AdmitsNext(json, After(json, x, Retrying(payload)));
  }

  // ---------------------------------------------------------------------------
  // The run
  // ---------------------------------------------------------------------------

  lemma RunTo(json: Bytes -> bool, w: World, es0: seq<Event>, e: Event) returns (ws: seq<World>, es: seq<Event>)
    requires Init(w) && CanDo(json, w, es0) && Enabled(json, After(json, w, es0), e)
    ensures Run(json, ws, es) && |es| == |es0| + 1 && ws[0] == w && es[|es0|] == e
    ensures ws[|es0|] == After(json, w, es0) && ws[|es|] == Next(json, After(json, w, es0), e)
  {
    hide Init, Next, Enabled, CanDo, After;
    var ws0 := RunOf(json, w, es0);
    ws, es := ws0 + [Next(json, ws0[|es0|], e)], es0 + [e];
    forall i | 0 <= i < |es|
      ensures Enabled(json, ws[i], es[i]) && ws[i + 1] == Next(json, ws[i], es[i])
    {
      if i < |es0| {
        assert ws[i] == ws0[i] && ws[i + 1] == ws0[i + 1] && es[i] == es0[i];
      }
    }
  }

  lemma CanReachRefusal(json: Bytes -> bool, w: World, s1: nat, s2: nat, commits: seq<Commit>, payload: Bytes,
                        draws: Draws, doc: Bytes, now: nat)
    returns (es: seq<Event>)
    requires Init(w) && s1 != s2 && Lists(w, commits) && !IsHandshake(payload)
    requires FreshDraws(w.node, draws) && doc != [] && json(doc) && !json(doc + draws.renewal.bytes)
    ensures CanDo(json, w, es) && Refused(json, After(json, w, es))
  {
    CurListed(w, commits);
    assert draws.renewal != w.cur && Sha256(draws.renewal) !in commits;
    assert w.Their().Some? && w.clientId in w.node.records.peers;
    hide Init, Lists, FreshDraws, Ownership.Inv, Next, Enabled, CanDo, After, Reconnecting, Serving, Learning, Retrying,
         Reconnected, Served, Lost, IsHandshake, Refused, World.Their;
    var es1, es2 := Reconnecting(s1, s2, commits), Serving(w, s2, payload, draws, doc, now);
    var es3, es4 := Learning(s1, s2, now), Retrying(payload);
    CanReconnect(json, w, s1, s2, commits);
    var x1 := After(json, w, es1);
    CanServe(json, w, x1, s1, s2, commits, payload, draws, doc, now);
    var x2 := After(json, x1, es2);
    CanLearn(json, w, x2, s1, s2, commits, payload, doc, draws.renewal, now);
    CanBeRefused(json, w, After(json, x2, es3), s1, commits, draws.renewal, payload);
    CanDoBoth(json, After(json, x1, es2), es3, es4);
    CanDoBoth(json, x1, es2, es3 + es4);
    CanDoBoth(json, w, es1, es2 + (es3 + es4));
    es := es1 + (es2 + (es3 + es4));
  }

  /**
   * From every starting state, a run in which the first send under the learned preimage is refused as
   * invalid: the device reconnects and answers one command, and then the I_AM of its first connection,
   * which was under way all the time, overwrites its entry. `doc` is the answer's JSON text.
   */
  lemma FirstSendRefused(json: Bytes -> bool, w: World, s1: nat, s2: nat, commits: seq<Commit>, payload: Bytes,
                         draws: Draws, doc: Bytes, now: nat)
    returns (ws: seq<World>, es: seq<Event>)
    requires Init(w) && s1 != s2 && Lists(w, commits) && !IsHandshake(payload)
    requires FreshDraws(w.node, draws) && doc != [] && json(doc) && !json(doc + draws.renewal.bytes)
    ensures Run(json, ws, es) && ws[0] == w && |es| > 0
    ensures var i := |es| - 1;
            && es[i] == RelayStep(Relay.Admit(2)) && 2 in ws[i].relay.calls
            && ws[i].relay.calls[2].preimage == ws[i].cur && Staleness.Unadmitted(ws[i].relay, ws[i].cur)
            && Staleness.Overwritten(ws, es, i)
            && Relay.At(ws[i + 1].relay, 2, Relay.Returned(Wire.SEND_ERR_INVALID_PREIMAGE, []))
  {
    var es0 := CanReachRefusal(json, w, s1, s2, commits, payload, draws, doc, now);
    hide Init, Lists, FreshDraws, Next, Enabled, CanDo, After, IsHandshake, Run, Staleness.Overwritten;
    ws, es := RunTo(json, w, es0, RelayStep(Relay.Admit(2)));
    Staleness.FirstSendExactly(json, ws, es, |es| - 1, 2);
  }
}
