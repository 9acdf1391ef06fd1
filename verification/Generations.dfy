/**
 * The main results about client and device together: they are never two generations apart,
 * never go backwards, and an honest client is never turned away as unknown.
 */
module Generations {
  import opened Types
  import opened Router
  import opened Device
  import opened Nodes
  import opened System
  import opened Replies
  import opened Sync
  import Links
  import Relay
  import Rendezvous
  import Provenance
  import Ownership
  import History
  import Wire

  // ---------------------------------------------------------------------------
  // The device handles a message
  // ---------------------------------------------------------------------------

  lemma HeldBy<K(!new)>(source: map<K, seq<Preimage>>, k: K, p: Preimage)
    requires k in source && p in source[k]
    ensures p in Held(source)
  {}

  lemma LookupClient(r: Records, id: Id, p: Preimage, from: Lookup)
    requires r.Owned() && id in r.peers && p in r.peers[id].issued && r.LooksUp(p, from)
    ensures from == FromPeer(id, r.peers[id])
  {
    assert p in r.ByPeer()[id];
    if p in r.invites {
      assert p in r.ByInvite()[p];
      HeldBy(r.ByInvite(), p, p);
      HeldBy(r.ByPeer(), id, p);
    }
    LookupUnique(r, p, from, FromPeer(id, r.peers[id]));
  }

  /** Handling a message under the client's live preimage: it is the client's, and the preimage is renewed. */
  lemma CommandRenews(m: History.Machine, id: Id, p: Preimage, e: Event)
    requires e.Handle? && Ownership.Inv(m) && id in m.records.peers && m.records.peers[id].issued == [p]
    requires History.Enabled(m, History.Command(p, e.from, e.req, e.pick, e.draws, e.now))
    ensures e.from == FromPeer(id, m.records.peers[id])
    ensures var h := CommandOutcome(m.records, e.from, p, e.req, e.pick, e.draws, e.now);
            h.renewed == Some(e.draws.renewal)
    ensures var m' := History.Next(m, History.Command(p, e.from, e.req, e.pick, e.draws, e.now));
            && Ownership.Inv(m') && id in m'.records.peers && m'.records.peers[id].issued == [e.draws.renewal]
            && m.consumed <= m'.consumed && p in m'.consumed
    ensures e.draws.renewal !in m.drawn && e.draws.renewal !in m.consumed && e.draws.renewal != p
  {
    LookupClient(m.records, id, p, e.from);
    Ownership.IssuedIsLive(m.records, id, p);
    Ownership.Step(m, History.Command(p, e.from, e.req, e.pick, e.draws, e.now));
    var r1 := if e.req.Some? then Dispatch(m.records, e.from.peer.role, e.req.value, e.pick, e.draws.invite, e.now).0 else m.records;
    if e.req.Some? {
      Ownership.DispatchOwned(m.records, e.from.peer.role, e.req.value, e.pick, e.draws.invite, e.now);
    }
    hide Records.Owned, Records.Live, Records.LooksUp, Dispatch;
    Ownership.RenewOwned(r1, id, p, e.draws.renewal, e.now);
  }

  /**
   * The message that the device takes is under its live preimage, so the client knows that one, and
   * no response is in transit.
   */
  lemma Delivered(json: Bytes -> bool, w: World)
    requires Inv(json, w) && w.conn.Some? && w.conn.value in w.links && w.links[w.conn.value].down != []
    ensures var s := w.conn.value; var d := w.links[s].down[0];
            && d.preimage == w.cur && Answerable(w.relay, d.msgId, w.cur)
            && w.links[s].down == [d] && w.relay.Queue(s) == [] && w.links[s].up == []
            && (forall k :: !Bound(w.relay, k, s))
    ensures w.Their() == Some(w.cur)
    ensures forall t :: t in w.links ==> w.links[t].up == [] || (|w.links[t].up| == 1 && w.links[t].up[0].Hail?)
  {
    hide Rendezvous.Inv, Provenance.Inv, Issued, Answerable, Arrived, Ups, View, Sends, Inbound;
    OneDelivered(w);
    KnowsLive(w, w.links[w.conn.value].down[0].msgId);
    NoneInTransit(json, w);
  }

  lemma OneDelivered(w: World)
    requires Inbound(w) && w.conn.Some? && w.conn.value in w.links && w.links[w.conn.value].down != []
    ensures var s := w.conn.value; var d := w.links[s].down[0];
            && d.preimage == w.cur && Answerable(w.relay, d.msgId, w.cur)
            && w.links[s].down == [d] && w.relay.Queue(s) == [] && (forall k :: !Bound(w.relay, k, s))
            && (w.links[s].up == [] || !w.links[s].up[0].Hail?)
  {
    assert w.links[w.conn.value].down[0] in w.links[w.conn.value].down;
    hide Answerable, Spent, Unused;
  }

  lemma KnowsLive(w: World, msgId: u32)
    requires Rendezvous.Inv(w.relay) && Sends(w) && Answerable(w.relay, msgId, w.cur)
    ensures w.Their() == Some(w.cur)
  {
    AnswerableNamed(w.relay, msgId, w.cur);
    hide Rendezvous.Inv, Answerable;
  }

  /** While the client knows the live preimage, no answer is in transit. */
  lemma NoneInTransit(json: Bytes -> bool, w: World)
    requires Ups(json, w) && w.Their() == Some(w.cur)
    ensures forall t :: t in w.links ==> w.links[t].up == [] || (|w.links[t].up| == 1 && w.links[t].up[0].Hail?)
  {
    assert forall t :: t in w.links ==> GoodUp(json, w, w.links[t].up);
  }

  /** What a command that was answered leaves: an answer in transit, unless the connection is dead. */
  ghost predicate Answers(w: World, w': World, s: nat, msgId: u32, doc: Bytes) {
    && w'.past == w.past + [w.cur] && s in w.links
    && w'.links == w.links[s := Link(
         if w.Open(s) then [Out(UpdateFrame([Sha256(w'.cur)])), Out(AckFrame(msgId, doc + w'.cur.bytes))] else [], [])]
  }

  lemma HandleLinks(w: World, e: Event, s: nat, d: Relay.Delivery)
    requires e.Handle? && w.conn == Some(s) && s in w.links && w.links[s] == Link([], [d])
    requires History.Enabled(w.node, CommandOf(d, e))
    requires CommandOutcome(w.node.records, e.from, d.preimage, e.req, e.pick, e.draws, e.now).renewed == Some(e.draws.renewal)
    ensures Answers(w, DoHandle(w, e), s, d.msgId, e.doc) && DoHandle(w, e).cur == e.draws.renewal
    ensures DoHandle(w, e).node == History.Next(w.node, CommandOf(d, e))
  {
    hide CommandOutcome, History.Next, History.Enabled;
    var h := CommandOutcome(w.node.records, e.from, d.preimage, e.req, e.pick, e.draws, e.now);
    var frames := CommandFrames(d.msgId, h, e.doc);
    assert frames == [UpdateFrame([Sha256(e.draws.renewal)]), AckFrame(d.msgId, e.doc + e.draws.renewal.bytes)];
    assert Outs(frames) == [Out(frames[0]), Out(frames[1])];
    assert [] + Outs(frames) == Outs(frames) && w.links[s].up + [] == [];
    assert w.links[s].down[1..] == [];
  }

  lemma HandleEffect(json: Bytes -> bool, w: World, e: Event)
    requires e.Handle? && Enabled(json, w, e) && Inv(json, w)
    ensures Answers(w, DoHandle(w, e), w.conn.value, w.links[w.conn.value].down[0].msgId, e.doc)
    ensures Issued(DoHandle(w, e))
  {
    Delivered(json, w);
    var s := w.conn.value;
    hide Ownership.Inv, Rendezvous.Inv, Provenance.Inv, CommandOutcome, Ups, Arrived, Sends, Inbound, Answerable,
         History.Next, History.Enabled, DoHandle, Answers;
    CommandRenews(w.node, w.clientId, w.cur, e);
    assert w.links[s] == Link([], [w.links[s].down[0]]);
    HandleLinks(w, e, s, w.links[s].down[0]);
    AppendFresh(w.past, w.cur);
    RenewedIssued(w, DoHandle(w, e), e.draws.renewal);
  }

  /** The renewed preimage is new to the device. */
  lemma Renews(json: Bytes -> bool, w: World, e: Event)
    requires e.Handle? && Enabled(json, w, e) && Inv(json, w)
    ensures var w' := DoHandle(w, e);
            w.node.drawn <= w'.node.drawn && w'.cur !in w.node.drawn
  {
    Delivered(json, w);
    hide Ownership.Inv, Rendezvous.Inv, Provenance.Inv, Ups, Arrived, Sends, Inbound, Answerable, Bound, View,
         CommandOutcome, DoHandle;
    CommandRenews(w.node, w.clientId, w.cur, e);
    assert w.links[w.conn.value] == Link([], [w.links[w.conn.value].down[0]]);
    hide History.Enabled, Issued;
    DrawnGrows(w.node, CommandOf(w.links[w.conn.value].down[0], e));
    hide History.Next;
    HandleLinks(w, e, w.conn.value, w.links[w.conn.value].down[0]);
  }

  lemma DrawnGrows(m: History.Machine, e: History.Event)
    requires History.Enabled(m, e)
    ensures m.drawn <= History.Next(m, e).drawn
  {}

  lemma RenewedIssued(w: World, w': World, renewal: Preimage)
    requires Issued(w) && Ownership.Inv(w'.node) && w'.clientId == w.clientId
    requires w'.clientId in w'.node.records.peers && w'.node.records.peers[w'.clientId].issued == [renewal]
    requires w.node.consumed <= w'.node.consumed && w.cur in w'.node.consumed
    requires w'.past == w.past + [w.cur] && w'.cur == renewal && renewal !in w.node.consumed && renewal != w.cur
    ensures Issued(w')
  {
    hide Ownership.Inv;
    AppendFresh(w.past, w.cur);
  }

  lemma HandleUps(json: Bytes -> bool, w: World, w': World, s: nat, d: Relay.Delivery, doc: Bytes)
    requires Answers(w, w', s, d.msgId, doc)
    requires w' == w.(node := w'.node, links := w'.links, past := w'.past, cur := w'.cur)
    requires w.Their() == Some(w.cur) && w'.cur != w.cur && doc != [] && json(doc)
    requires Answerable(w.relay, d.msgId, w.cur)
    requires forall t :: t in w.links ==> w.links[t].up == [] || (|w.links[t].up| == 1 && w.links[t].up[0].Hail?)
    requires Arrived(json, w)
    ensures Ups(json, w')
  {
    hide Answerable;
    var r := doc + w'.cur.bytes;
    assert r[..|r| - 32] == doc && r[|r| - 32..] == w'.cur.bytes;
    assert forall a :: a in w.answers ==> a in w.relay.acks && GoodArrival(json, w, a);
    assert GoodAck(json, w', Out(AckFrame(d.msgId, r)));
  }

  lemma HandleArrived(json: Bytes -> bool, w: World, w': World)
    requires w' == w.(node := w'.node, links := w'.links, past := w.past + [w.cur], cur := w'.cur)
    requires Arrived(json, w)
    ensures Arrived(json, w')
  {
    hide Answerable, Carries, Named;
    forall a | a in w'.relay.acks ensures GoodArrival(json, w', a) {
      assert GoodArrival(json, w, a);
    }
    hide GoodArrival;
  }

  lemma HandleInbound(w: World, w': World, s: nat)
    requires w' == w.(node := w'.node, links := w'.links, past := w.past + [w.cur], cur := w'.cur)
    requires w.conn == Some(s) && s in w'.links && w'.links[s].down == []
    requires w'.links[s].up == [] || !w'.links[s].up[0].Hail?
    requires w.relay.Queue(s) == [] && (forall k :: !Bound(w.relay, k, s))
    requires s in w.links && w.links[s].down != [] && Spent(w.relay, w.nodeId, s, w.links[s].down, w.past, w.cur)
    ensures Inbound(w')
  {}

  /** The device handles a message. */
  lemma HandleInv(json: Bytes -> bool, w: World, e: Event)
    requires e.Handle? && Enabled(json, w, e) && Inv(json, w)
    ensures Inv(json, DoHandle(w, e)) && Behind(DoHandle(w, e))
  {
    var w', s := DoHandle(w, e), w.conn.value;
    Delivered(json, w);
    HandleEffect(json, w, e);
    assert s in w'.links && w'.links[s].down == [] && (w'.links[s].up == [] || !w'.links[s].up[0].Hail?);
    hide Inv, DoHandle, Answers;
    HandleRest(json, w, w', s, e.doc);
  }

  lemma HandleRest(json: Bytes -> bool, w: World, w': World, s: nat, doc: Bytes)
    requires w' == w.(node := w'.node, links := w'.links, past := w.past + [w.cur], cur := w'.cur)
    requires w.conn == Some(s) && s in w.links && |w.links[s].down| == 1 && Issued(w') && doc != [] && json(doc)
    requires var d := w.links[s].down[0];
             Answers(w, w', s, d.msgId, doc) && Answerable(w.relay, d.msgId, w.cur)
    requires s in w'.links && w'.links[s].down == [] && (w'.links[s].up == [] || !w'.links[s].up[0].Hail?)
    requires w.relay.Queue(s) == [] && (forall k :: !Bound(w.relay, k, s)) && w.Their() == Some(w.cur)
    requires forall t :: t in w.links ==> w.links[t].up == [] || (|w.links[t].up| == 1 && w.links[t].up[0].Hail?)
    requires Inv(json, w)
    ensures Inv(json, w') && Behind(w')
  {
    hide Issued, Sends, Relayed, Ups, Arrived, OneAtMost, Spent, Greeting, Answerable, Bound, Answers, Inbound;
    NewGeneration(w');
    InboundSpent(w, s);
    HandleUps(json, w, w', s, w.links[s].down[0], doc);
    HandleArrived(json, w, w');
    HandleInbound(w, w', s);
    HandleSends(w, w');
    SameRelay(w, w');
  }

  lemma InboundSpent(w: World, s: nat)
    requires Inbound(w) && w.conn == Some(s)
    ensures s in w.links && Spent(w.relay, w.nodeId, s, w.links[s].down, w.past, w.cur)
  {}

  lemma SameRelay(w: World, w': World)
    requires Relayed(w) && w'.relay == w.relay
    ensures Relayed(w')
  {}

  lemma HandleSends(w: World, w': World)
    requires w' == w.(node := w'.node, links := w'.links, past := w.past + [w.cur], cur := w'.cur)
    requires Sends(w) && w'.cur !in w'.past
    ensures Sends(w')
  {}

  lemma NewGeneration(w: World)
    requires Issued(w)
    ensures w.cur !in w.past
  {}

  // ---------------------------------------------------------------------------
  // Connecting
  // ---------------------------------------------------------------------------

  lemma ConnectInbound(w: World, w': World, s: nat, commits: seq<Commit>)
    requires NewChannel(w, s) && (forall c :: c in commits <==> c.preimage in w.node.records.Live())
    requires w' == w.(links := w.links[s := Link([Hail(commits)], [])], conn := Some(s))
    requires Issued(w)
    ensures Inbound(w')
  {
    assert w.cur in w.node.records.Live() by {
      Ownership.IssuedIsLive(w.node.records, w.clientId, w.cur);
    }
    hide Records.Owned, Records.Live;
    assert forall p :: p in w.past ==> p !in w.node.records.Live();
    assert w.relay.Queue(s) == [];
  }

  lemma ConnectInv(json: Bytes -> bool, w: World, w': World, s: nat, commits: seq<Commit>)
    requires NewChannel(w, s) && (forall c :: c in commits <==> c.preimage in w.node.records.Live())
    requires w' == w.(links := w.links[s := Link([Hail(commits)], [])], conn := Some(s))
    requires Inv(json, w)
    ensures Inv(json, w')
  {
    hide Records.Owned, Records.Live, Rendezvous.Inv, Provenance.Inv, OneAtMost, Spent, Unused, Answerable, Carries,
         Named;
    ConnectInbound(w, w', s, commits);
    hide Inbound, Ownership.Inv;
    SameUps(json, w, w');
    SameArrived(json, w, w');
  }

  /** New links say I_AM, and the client knows no more and no less. */
  lemma SameUps(json: Bytes -> bool, w: World, w': World)
    requires Ups(json, w) && w'.relay == w.relay && w'.past == w.past && w'.cur == w.cur && w'.answers == w.answers
    requires w'.client == w.client && w'.nodeId == w.nodeId
    requires forall s :: s in w'.links && s in w.links ==> w'.links[s] == w.links[s]
    requires forall s :: s in w'.links && s !in w.links ==> |w'.links[s].up| == 1 && w'.links[s].up[0].Hail?
    ensures Ups(json, w')
  {
    forall s | s in w'.links ensures GoodUp(json, w', w'.links[s].up) {
      if s in w.links {
        assert GoodUp(json, w, w.links[s].up);
      }
    }
    hide GoodUp;
  }

  lemma SameArrived(json: Bytes -> bool, w: World, w': World)
    requires Arrived(json, w) && w'.relay == w.relay && w'.past == w.past && w'.cur == w.cur && w'.answers == w.answers
    ensures Arrived(json, w')
  {
    hide Named, Answerable, Carries;
    forall a | a in w'.relay.acks ensures GoodArrival(json, w', a) {
      assert GoodArrival(json, w, a);
    }
    hide GoodArrival;
  }

  // ---------------------------------------------------------------------------
  // The client gets a result
  // ---------------------------------------------------------------------------

  /** What a client learns from the result of its send is the preimage after the one it sent with: it catches up. */
  lemma ResultLearned(json: Bytes -> bool, w: World, payload: Bytes) returns (a: nat)
    requires w.waiting.Some? && w.waiting.value in w.relay.calls
    requires w.relay.calls[w.waiting.value].pc == Relay.Returned(Wire.SEND_OK, payload)
    requires Few(w) && Inv(json, w)
    ensures Behind(w) && Carries(json, payload, w.cur) && a in w.answers && w.answers[a] == |w.past| - 1
    ensures Learned(json, payload) == if json(payload) then None else Some(w.cur)
  {
    var p := w.relay.calls[w.waiting.value].preimage;
    assert w.Their() == Some(p);
    assert Provenance.Belongs(w.relay, p, payload);
    hide Rendezvous.Inv, Provenance.Belongs, Provenance.CacheBelongs, Provenance.SlotsBelong, Ups, Sends, Inbound;
    a := BelongsCarries(json, w, p, payload);
    assert p in w.past;
  }

  lemma ResultInv(json: Bytes -> bool, w: World, now: nat)
    requires Enabled(json, w, ClientResult(now)) && Few(w) && Inv(json, w)
    ensures Inv(json, DoResult(json, w, now))
    ensures DoResult(json, w, now).Their() == w.Their() || (Behind(w) && DoResult(json, w, now).Their() == Some(w.cur))
  {
    var w' := DoResult(json, w, now);
    var Returned(status, payload) := w.relay.calls[w.waiting.value].pc;
    if status == Wire.SEND_OK && Learned(json, payload).Some? {
      var a := ResultLearned(json, w, payload);
      assert w'.nodeId in w'.client.peers && w'.Their() == Some(w.cur);
      hide Inv, DoResult, Learned;
      CaughtUp(json, w, w', a);
    } else {
      assert w' == w.(waiting := None);
      hide Inv, DoResult, Learned;
      StoppedWaiting(json, w);
    }
  }

  lemma CaughtUp(json: Bytes -> bool, w: World, w': World, a: nat)
    requires w' == w.(client := w'.client, waiting := None)
    requires w'.nodeId in w'.client.peers && w'.Their() == Some(w.cur)
    requires w.past != [] && a in w.answers && w.answers[a] == |w.past| - 1
    requires Inv(json, w)
    ensures Inv(json, w')
  {
    hide Rendezvous.Inv, Provenance.Inv, Ownership.Inv, OneAtMost, Spent, Unused, GoodAck, GoodArrival;
    NoAcks(json, w, a);
    SameArrived(json, w, w');
  }

  /** Nothing moved but the client's own frames and expectations, or the device hung up. */
  lemma QuietInv(json: Bytes -> bool, w: World, w': World)
    requires w' == w.(outbox := w'.outbox, waiting := w'.waiting, conn := w'.conn)
    requires w'.conn == w.conn || w'.conn == None
    requires Sends(w') && Inv(json, w)
    ensures Inv(json, w')
  {
    hide Sends, Rendezvous.Inv, Provenance.Inv, Ownership.Inv, OneAtMost, Spent, Unused, Ups, Arrived;
    SameArrived(json, w, w');
    SameUps(json, w, w');
  }

  lemma StoppedWaiting(json: Bytes -> bool, w: World)
    requires Inv(json, w)
    ensures Inv(json, w.(waiting := None))
  {
    hide Relayed, Issued, View, Ups, Arrived, Inbound;
    QuietInv(json, w, w.(waiting := None));
  }

  /** Once the latest answer has arrived, none is in transit. */
  lemma NoAcks(json: Bytes -> bool, w: World, a: nat)
    requires Ups(json, w) && a in w.answers && w.past != [] && w.answers[a] == |w.past| - 1
    ensures forall s :: s in w.links ==> w.links[s].up == [] || (|w.links[s].up| == 1 && w.links[s].up[0].Hail?)
  {
    forall s | s in w.links
      ensures w.links[s].up == [] || (|w.links[s].up| == 1 && w.links[s].up[0].Hail?)
    {
      assert GoodUp(json, w, w.links[s].up);
    }
  }

  lemma ClientSends(json: Bytes -> bool, w: World, k: nat, payload: Bytes)
    requires w.Their().Some? && k !in w.outbox && k !in w.relay.calls && Inv(json, w)
    ensures Inv(json, w.(outbox := w.outbox[k := Sending(w.Their().value, payload)], waiting := Some(k)))
  {
    var w' := w.(outbox := w.outbox[k := Sending(w.Their().value, payload)], waiting := Some(k));
    hide Relayed, Issued, Ups, Arrived, Inbound;
    OneMoreSend(w, w', k, payload);
    hide View, Sends;
    QuietInv(json, w, w');
  }

  lemma OneMoreSend(w: World, w': World, k: nat, payload: Bytes)
    requires w.Their().Some? && k !in w.relay.calls
    requires w' == w.(outbox := w.outbox[k := Sending(w.Their().value, payload)], waiting := Some(k))
    requires View(w) && Sends(w)
    ensures Sends(w')
  {
    assert OkPreimage(w', w.Their().value);
    assert forall p :: OkPreimage(w, p) <==> OkPreimage(w', p);
    hide OkPreimage;
  }

  lemma SendLost(json: Bytes -> bool, w: World, k: nat)
    requires Inv(json, w)
    ensures Inv(json, w.(outbox := w.outbox - {k}))
  {
    hide Relayed, Issued, View, Ups, Arrived, Inbound;
    QuietInv(json, w, w.(outbox := w.outbox - {k}));
  }

  lemma Disconnected(json: Bytes -> bool, w: World)
    requires Inv(json, w)
    ensures Inv(json, w.(conn := None))
  {
    hide Relayed, Issued, View, Ups, Arrived, Inbound;
    QuietInv(json, w, w.(conn := None));
  }

  // ---------------------------------------------------------------------------
  // Every step
  // ---------------------------------------------------------------------------

  lemma FewBefore(json: Bytes -> bool, w: World, e: Event)
    requires Enabled(json, w, e) && Few(Next(json, w, e))
    ensures Few(w)
  {
    hide Relay.Next, DoResult, DoProcess, DoHandle;
    if e.RelayStep? {
      SerialsGrow(w.relay, e.step);
    } else {
      OthersKeepSerials(json, w, e);
    }
  }

  lemma OthersKeepSerials(json: Bytes -> bool, w: World, e: Event)
    requires Enabled(json, w, e) && !e.RelayStep?
    ensures Next(json, w, e).relay.serials == w.relay.serials
  {
    hide Relay.Next;
    match e
    case ReceiveSend(k) =>
      Relay.ChannelsFrame(w.relay, Relay.Invoke(k, w.nodeId, w.outbox[k].preimage, w.outbox[k].payload));
    case Process(s, a) => ProcessKeepsSerials(w, s, a);
    case Forward(s) => Relay.ChannelsFrame(w.relay, Relay.Dequeue(s));
    case End(s) => Relay.ChannelsFrame(w.relay, Relay.Close(s));
    case _ =>
  }

  lemma ProcessKeepsSerials(w: World, s: nat, a: nat)
    requires w.Open(s) && w.links[s].up != [] && a !in w.relay.acks
    ensures DoProcess(w, s, a).relay.serials == w.relay.serials
  {
    hide Relay.Next;
    match w.links[s].up[0]
    case Hail(commits) => Relay.ChannelsFrame(w.relay, Relay.Register(w.nodeId, commits, [], s));
    case Out(UpdateFrame(commits)) => Relay.ChannelsFrame(w.relay, Relay.AddCommits(w.nodeId, commits));
    case Out(AckFrame(msgId, response)) => Relay.ChannelsFrame(w.relay, Relay.AckArrive(a, s, msgId, response));
  }

  lemma Step(json: Bytes -> bool, w: World, e: Event)
    requires Enabled(json, w, e) && Few(Next(json, w, e)) && Inv(json, w)
    ensures Inv(json, Next(json, w, e))
  {
    FewBefore(json, w, e);
    hide Inv, Few, Relay.Enabled, Relay.Next, DoResult, DoProcess, DoHandle;
    match e
    case ClientSend(k, payload) => ClientSends(json, w, k, payload);
    case ClientGiveUp => StoppedWaiting(json, w);
    case ClientResult(now) => ResultInv(json, w, now);
    case LoseSend(k) => SendLost(json, w, k);
    case ReceiveSend(k) => ReceiveSendInv(json, w, Next(json, w, e), k);
    case RelayStep(step) => RelayStepInv(json, w, Next(json, w, e), step);
    case Connect(s, commits) => ConnectInv(json, w, Next(json, w, e), s, commits);
    case Disconnect => Disconnected(json, w);
    case Process(s, a) => Links.ProcessInv(json, w, s, a);
    case Forward(s) => Forwarded(json, w, Next(json, w, e), s);
    case End(s) => Ended(json, w, Next(json, w, e), s);
    case Handle(_, _, _, _, _, _) => HandleInv(json, w, e);
  }

  lemma Forwarded(json: Bytes -> bool, w: World, w': World, s: nat)
    requires w.Open(s) && w.relay.Queue(s) != []
    requires w' == w.(relay := Relay.Next(w.relay, Relay.Dequeue(s)),
                      links := w.links[s := w.links[s].(down := w.links[s].down + [w.relay.Queue(s)[0]])])
    requires Few(w) && Inv(json, w)
    ensures Inv(json, w')
  {
    var q := w.relay.Queue(s);
    assert w.links[s].down + [q[0]] + q[1..] == w.links[s].down + q;
    assert w'.relay.Queue(s) == q[1..];
    hide Inv;
    Links.MovedInv(json, w, w', s, Relay.Dequeue(s));
  }

  lemma Ended(json: Bytes -> bool, w: World, w': World, s: nat)
    requires w.Open(s)
    requires w' == w.(relay := Relay.Next(w.relay, Relay.Close(s)), links := w.links[s := w.links[s].(up := [])])
    requires Few(w) && Inv(json, w)
    ensures Inv(json, w')
  {
    hide Inv;
    Links.MovedInv(json, w, w', s, Relay.Close(s));
  }

  lemma Start(json: Bytes -> bool, w: World)
    requires Init(w)
    ensures Inv(json, w)
  {
    var ms, es :| History.Run(ms, es) && w.node == ms[|es|];
    Ownership.RunKeepsInv(ms, es, |es|);
    Ownership.IssuedIsLive(w.node.records, w.clientId, w.cur);
  }

  /** Unless the relay has given out all 2^32 message ids. */
  lemma {:induction false} RunKeepsInv(json: Bytes -> bool, ws: seq<World>, es: seq<Event>, i: nat)
    requires Run(json, ws, es) && i <= |es| && Few(ws[i])
    ensures Inv(json, ws[i])
    decreases i
  {
    hide Inv, Next, Few, Init, Enabled;
    if i > 0 {
      FewBefore(json, ws[i - 1], es[i - 1]);
      RunKeepsInv(json, ws, es, i - 1);
      Step(json, ws[i - 1], es[i - 1]);
    } else {
      Start(json, ws[0]);
    }
  }

  // ---------------------------------------------------------------------------
  // What follows for every run
  // ---------------------------------------------------------------------------

  /** All preimages that the device ever issued to the client, in order. */
  function Issues(w: World): seq<Preimage> {
    w.past + [w.cur]
  }

  /** Which of them the client holds. */
  function Knows(w: World): nat {
    if w.Their() == Some(w.cur) || w.past == [] then |w.past| else |w.past| - 1
  }

  /**
   * Through any interleaving of timeouts, disconnects, reconnects, retries and cache expiry,
   * the client holds the device's one live preimage for it, or the one consumed just before.
   */
  lemma NeverTwoBehind(json: Bytes -> bool, ws: seq<World>, es: seq<Event>, i: nat)
    requires Run(json, ws, es) && i <= |es| && Few(ws[i])
    ensures var w := ws[i];
            && w.clientId in w.node.records.peers && w.node.records.peers[w.clientId].issued == [w.cur]
            && w.Their() == Some(Issues(w)[Knows(w)]) && |w.past| - 1 <= Knows(w) <= |w.past|
            && NoDuplicates(Issues(w)) && forall p :: p in w.past ==> p in w.node.consumed
  {
    RunKeepsInv(json, ws, es, i);
    AppendFresh(ws[i].past, ws[i].cur);
    hide Relayed, Sends, Ups, Arrived, Inbound, Ownership.Inv;
  }

  lemma Onwards(json: Bytes -> bool, w: World, e: Event)
    requires Enabled(json, w, e) && Few(Next(json, w, e)) && Inv(json, w)
    ensures Knows(w) <= Knows(Next(json, w, e)) && Issues(w) <= Issues(Next(json, w, e))
  {
    hide Relay.Next, Relay.Enabled, Few, Inv, History.Next, DoResult, DoProcess, DoHandle, Next, Enabled, Answers;
    FewBefore(json, w, e);
    if e.ClientResult? {
      NextOf(json, w, e);
      ResultInv(json, w, e.now);
    } else if e.Handle? {
      HandleNext(json, w, e);
      HandleOnwards(json, w, e);
    } else {
      ElsewhereSame(json, w, e);
    }
  }

  lemma HandleOnwards(json: Bytes -> bool, w: World, e: Event)
    requires e.Handle? && Enabled(json, w, e) && Inv(json, w)
    ensures DoHandle(w, e).past == w.past + [w.cur] && Knows(DoHandle(w, e)) >= |w.past|
  {
    HandleEffect(json, w, e);
    hide Inv, DoHandle, Enabled;
  }

  lemma NextOf(json: Bytes -> bool, w: World, e: Event)
    requires e.ClientResult? && Enabled(json, w, e)
    ensures w.waiting.Some? && w.waiting.value in w.relay.calls && w.relay.calls[w.waiting.value].pc.Returned?
    ensures Next(json, w, e) == DoResult(json, w, e.now)
  {}

  lemma ElsewhereSame(json: Bytes -> bool, w: World, e: Event)
    requires Enabled(json, w, e) && !e.ClientResult? && !e.Handle?
    ensures var w' := Next(json, w, e);
            w'.past == w.past && w'.cur == w.cur && w'.client == w.client && w'.nodeId == w.nodeId
  {
    hide Relay.Next, Relay.Enabled, History.Next, NewChannel;
  }

  /** The client never goes back to an older preimage, nor the device. */
  lemma {:induction false} NeverBackwards(json: Bytes -> bool, ws: seq<World>, es: seq<Event>, i: nat, j: nat)
    requires Run(json, ws, es) && i <= j <= |es| && Few(ws[j])
    ensures Knows(ws[i]) <= Knows(ws[j]) && Issues(ws[i]) <= Issues(ws[j])
    decreases j
  {
    hide Next, Few, Init, Enabled, Knows, Issues;
    if i < j {
      StepBefore(json, ws, es, j);
      NeverBackwards(json, ws, es, i, j - 1);
      Onwards(json, ws[j - 1], es[j - 1]);
    }
  }

  /** The state before the `j`-th, as an invariant state. */
  lemma StepBefore(json: Bytes -> bool, ws: seq<World>, es: seq<Event>, j: nat)
    requires Run(json, ws, es) && 0 < j <= |es| && Few(ws[j])
    ensures Enabled(json, ws[j - 1], es[j - 1]) && ws[j] == Next(json, ws[j - 1], es[j - 1])
    ensures Few(ws[j - 1]) && Inv(json, ws[j - 1])
  {
    FewBefore(json, ws[j - 1], es[j - 1]);
    RunKeepsInv(json, ws, es, j - 1);
  }

  /** The next message is the client's, its command is answered, and the preimage renewed. */
  ghost predicate Recognised(w: World, w': World, e: Event)
    requires e.Handle?
  {
    && w.conn.Some? && w.conn.value in w.links && w.links[w.conn.value].down != []
    && var p := w.links[w.conn.value].down[0].preimage;
       var h := CommandOutcome(w.node.records, e.from, p, e.req, e.pick, e.draws, e.now);
       && p == w.cur && w.clientId in w.node.records.peers
       && e.from == FromPeer(w.clientId, w.node.records.peers[w.clientId])
       && h.response != Unauthorized && h.renewed == Some(w'.cur) && w'.past == w.past + [w.cur]
  }

  lemma HandleRecognised(json: Bytes -> bool, w: World, e: Event)
    requires e.Handle? && Enabled(json, w, e) && Inv(json, w)
    ensures Recognised(w, DoHandle(w, e), e)
  {
    Delivered(json, w);
    HandleEffect(json, w, e);
    hide Ownership.Inv, Rendezvous.Inv, Provenance.Inv, Ups, Arrived, Sends, Inbound, Answerable, Bound,
         History.Next, History.Enabled;
    CommandRenews(w.node, w.clientId, w.cur, e);
    var p := w.links[w.conn.value].down[0].preimage;
    hide DoHandle;
    Answered(w.node.records, e.from, p, e.req, e.pick, e.draws, e.now);
    hide CommandOutcome;
  }

  lemma Answered(r: Records, from: Lookup, p: Preimage, req: Option<Request>, pick: Option<Preimage>, draws: Draws,
                 now: nat)
    requires from.FromPeer?
    ensures CommandOutcome(r, from, p, req, pick, draws, now).response != Unauthorized
  {}

  /**
   * Whatever has been lost on the way: a message that reaches the device is always under its live
   * preimage for the client, and never turned away.
   */
  lemma NeverTurnedAway(json: Bytes -> bool, ws: seq<World>, es: seq<Event>, i: nat)
    requires Run(json, ws, es) && i < |es| && es[i].Handle? && Few(ws[i + 1])
    ensures Recognised(ws[i], ws[i + 1], es[i])
  {
    hide Next, Few, Init, Inv, Recognised, Enabled, DoHandle;
    StepBefore(json, ws, es, i + 1);
    HandleNext(json, ws[i], es[i]);
    HandleRecognised(json, ws[i], es[i]);
  }

  lemma HandleNext(json: Bytes -> bool, w: World, e: Event)
    requires e.Handle? && Enabled(json, w, e)
    ensures w.conn.Some? && w.conn.value in w.links && w.links[w.conn.value].down != []
    ensures History.Enabled(w.node, CommandOf(w.links[w.conn.value].down[0], e))
    ensures Next(json, w, e) == DoHandle(w, e)
  {}
}
