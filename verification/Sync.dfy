/**
 * Client and device never drift apart by more than one message: in every run, the preimage
 * that the client holds is the one live preimage that the device issued to it, or the one
 * the device consumed last.
 */
module Sync {
  import opened Types
  import opened Router
  import opened Device
  import opened Nodes
  import opened System
  import opened Replies
  import Relay
  import Rendezvous
  import Provenance
  import Ownership
  import Wire

  /** The client holds the preimage that the device consumed last. */
  ghost predicate Behind(w: World) {
    w.past != [] && w.Their() == Some(w.past[|w.past| - 1])
  }

  /** The response ends with this preimage, after a text that parses. */
  ghost predicate Carries(json: Bytes -> bool, response: Bytes, p: Preimage) {
    |response| > 32 && response[|response| - 32..] == p.bytes && json(response[..|response| - 32])
  }

  /** The device has issued one live preimage to the client, and consumed all those before it. */
  ghost predicate Issued(w: World) {
    && Ownership.Inv(w.node)
    && w.clientId in w.node.records.peers && w.node.records.peers[w.clientId].issued == [w.cur]
    && NoDuplicates(w.past) && (forall p :: p in w.past ==> p in w.node.consumed)
    && w.cur !in w.past
  }

  ghost predicate View(w: World) {
    && w.nodeId in w.client.peers
    && (w.Their() == Some(w.cur) || Behind(w))
  }

  /** The client sends what the device issued, and `cur` only once it knows it. */
  predicate OkPreimage(w: World, p: Preimage) {
    (p in w.past || p == w.cur) && (p == w.cur ==> w.Their() == Some(w.cur))
  }

  ghost predicate Sends(w: World) {
    && (forall k :: k in w.outbox ==> OkPreimage(w, w.outbox[k].preimage))
    && (forall k :: k in w.relay.calls ==> w.relay.calls[k].to == w.nodeId && OkPreimage(w, w.relay.calls[k].preimage))
    && (w.waiting.Some? ==>
          && (w.waiting.value in w.outbox ==> w.Their() == Some(w.outbox[w.waiting.value].preimage))
          && (w.waiting.value in w.relay.calls ==> w.Their() == Some(w.relay.calls[w.waiting.value].preimage)))
  }

  /**
   * An acknowledgement in transit: it brings the client, which is behind, the device's live
   * preimage, and no other does.
   */
  ghost predicate GoodAck(json: Bytes -> bool, w: World, f: UpFrame) {
    && f.Out? && f.frame.AckFrame?
    && w.past != [] && w.Their() != Some(w.cur)
    && Answerable(w.relay, f.frame.msgId, w.past[|w.past| - 1]) && Carries(json, f.frame.payload, w.cur)
    && forall a :: a in w.answers ==> w.answers[a] < |w.past| - 1
  }

  ghost predicate GoodUp(json: Bytes -> bool, w: World, up: seq<UpFrame>) {
    || up == []
    || (|up| == 1 && up[0].Hail?)
    || (|up| == 1 && GoodAck(json, w, up[0]))
    || (|up| == 2 && up[0] == Out(UpdateFrame([Sha256(w.cur)])) && GoodAck(json, w, up[1]))
  }

  predicate HasAck(up: seq<UpFrame>) {
    up != [] && up[|up| - 1].Out?
  }

  ghost predicate Ups(json: Bytes -> bool, w: World) {
    && (forall s :: s in w.links ==> GoodUp(json, w, w.links[s].up))
    && (forall s, t :: s in w.links && t in w.links && HasAck(w.links[s].up) && HasAck(w.links[t].up) ==> s == t)
  }

  ghost predicate GoodArrival(json: Bytes -> bool, w: World, a: nat)
    requires a in w.relay.acks
  {
    && a in w.answers && w.answers[a] < |w.past|
    && Named(w.relay, w.relay.acks[a].msgId, w.past[w.answers[a]])
    && Carries(json, w.relay.acks[a].response, w.After(w.answers[a]))
    && (w.answers[a] == |w.past| - 1 && w.relay.acks[a].pc.Taking? ==>
          Answerable(w.relay, w.relay.acks[a].msgId, w.past[|w.past| - 1]))
  }

  /** Each preimage was answered at most once, with the one after it. */
  ghost predicate Arrived(json: Bytes -> bool, w: World) {
    && w.answers.Keys == w.relay.acks.Keys
    && (forall a :: a in w.relay.acks ==> GoodArrival(json, w, a))
    && (forall a, b :: a in w.answers && b in w.answers && w.answers[a] == w.answers[b] ==> a == b)
  }

  ghost predicate NoTicket(m: Relay.State, s: nat) {
    forall k :: k in m.calls && m.calls[k].ticket.Some? ==> m.calls[k].ticket.value.channel != s
  }

  ghost predicate Unused(m: Relay.State, id: Id, s: nat) {
    m.Queue(s) == [] && !Leads(m, id, s) && NoTicket(m, s)
  }

  /** Nothing leads to a connection before its I_AM is handled, which lists `cur` and no older preimage. */
  ghost predicate Greeting(m: Relay.State, id: Id, s: nat, link: Link, past: seq<Preimage>, cur: Preimage) {
    link.up != [] && link.up[0].Hail? ==>
      && link.down == [] && Unused(m, id, s)
      && Sha256(cur) in link.up[0].commits
      && forall p :: p in past ==> Sha256(p) !in link.up[0].commits
  }

  ghost predicate Inbound(w: World) {
    w.conn.Some? ==>
      && w.conn.value in w.links
      && OneAtMost(w.relay, w.conn.value, w.links[w.conn.value].down, w.cur)
      && Spent(w.relay, w.nodeId, w.conn.value, w.links[w.conn.value].down, w.past, w.cur)
      && Greeting(w.relay, w.nodeId, w.conn.value, w.links[w.conn.value], w.past, w.cur)
  }

  ghost predicate Relayed(w: World) {
    Rendezvous.Inv(w.relay) && Provenance.Inv(w.relay) && w.relay.loaded == {}
  }

  ghost predicate Inv(json: Bytes -> bool, w: World) {
    Relayed(w) && Issued(w) && View(w) && Sends(w) && Ups(json, w) && Arrived(json, w) && Inbound(w)
  }

  ghost predicate Few(w: World) {
    w.relay.serials <= Wire.U32_SIZE
  }

  // ---------------------------------------------------------------------------
  // What the invariant says about responses
  // ---------------------------------------------------------------------------

  lemma CurUnacked(json: Bytes -> bool, w: World)
    requires Rendezvous.Inv(w.relay) && Few(w) && Arrived(json, w) && Issued(w)
    ensures Unacked(w.relay, w.cur)
  {
    forall a, c | Provenance.About(w.relay, a, c)
      ensures w.relay.calls[c].preimage != w.cur
    {
      assert GoodArrival(json, w, a);
      assert Named(w.relay, w.relay.acks[a].msgId, w.relay.calls[c].preimage);
      NamedOnce(w.relay, w.relay.acks[a].msgId, w.relay.calls[c].preimage, w.past[w.answers[a]]);
    }
  }

  /** A response that belongs to a preimage carries the one issued after it. */
  lemma BelongsCarries(json: Bytes -> bool, w: World, p: Preimage, r: Bytes) returns (a: nat)
    requires Relayed(w) && Few(w) && Arrived(json, w) && Provenance.Belongs(w.relay, p, r)
    ensures a in w.answers && w.answers[a] < |w.past| && w.past[w.answers[a]] == p
    ensures Carries(json, r, w.After(w.answers[a]))
  {
    var c :| c in w.relay.calls && w.relay.calls[c].preimage == p && Provenance.Answered(w.relay, c, r);
    a :| Provenance.About(w.relay, a, c) && w.relay.acks[a].response == r;
    assert GoodArrival(json, w, a);
    assert Named(w.relay, w.relay.acks[a].msgId, p);
    NamedOnce(w.relay, w.relay.acks[a].msgId, p, w.past[w.answers[a]]);
  }

  // ---------------------------------------------------------------------------
  // Steps of the relay
  // ---------------------------------------------------------------------------

  lemma RelayedStep(w: World, w': World, e: Relay.Event)
    requires Relayed(w) && Relay.Enabled(w.relay, e) && w'.relay == Relay.Next(w.relay, e)
    requires e.Register? ==> e.recent == []
    ensures Relayed(w')
  {
    Rendezvous.Step(w.relay, e);
    Provenance.CacheStep(w.relay, e);
    Provenance.SlotsStep(w.relay, e);
    Provenance.ResultsStep(w.relay, e);
    Relay.ChannelsFrame(w.relay, e);
  }

  /** The relay moved, and neither the client's knowledge nor the device's records. */
  ghost predicate Apart(w: World, w': World) {
    && w'.nodeId == w.nodeId && w'.node == w.node && w'.clientId == w.clientId && w'.client == w.client
    && w'.past == w.past && w'.cur == w.cur
  }

  lemma GoodAckKept(json: Bytes -> bool, w: World, w': World, e: Relay.Event, f: UpFrame)
    requires Rendezvous.Inv(w.relay) && Few(w) && Arrived(json, w) && Issued(w) && GoodAck(json, w, f)
    requires Relay.Enabled(w.relay, e) && w'.relay == Relay.Next(w.relay, e) && Rendezvous.Inv(w'.relay) && Few(w')
    requires Apart(w, w') && w'.answers == w.answers
    ensures GoodAck(json, w', f)
  {
    var last := w.past[|w.past| - 1];
    if e.AckTake? && w.relay.acks[e.ack].msgId == f.frame.msgId {
      AnswerableNamed(w.relay, f.frame.msgId, last);
      assert GoodArrival(json, w, e.ack);
      NamedOnce(w.relay, f.frame.msgId, last, w.past[w.answers[e.ack]]);
      assert false;
    }
    hide Relay.Next;
    AnswerableKept(w.relay, e, f.frame.msgId, last);
  }

  /** What a step leaves of the frames in transit: all, none, or those after an UPDATE_COMMITS. */
  predicate Shortened(up: seq<UpFrame>, up': seq<UpFrame>) {
    up' == up || up' == [] || (|up| == 2 && up' == up[1..])
  }

  lemma UpsKept(json: Bytes -> bool, w: World, w': World, e: Relay.Event)
    requires Rendezvous.Inv(w.relay) && Few(w) && Arrived(json, w) && Issued(w) && Ups(json, w)
    requires Relay.Enabled(w.relay, e) && w'.relay == Relay.Next(w.relay, e) && Rendezvous.Inv(w'.relay) && Few(w')
    requires Apart(w, w') && w'.answers == w.answers
    requires w'.links.Keys == w.links.Keys
    requires forall s :: s in w.links ==> Shortened(w.links[s].up, w'.links[s].up)
    ensures Ups(json, w')
  {
    hide Relay.Next, Relay.Enabled, GoodAck, Issued, Arrived;
    forall s | s in w'.links
      ensures GoodUp(json, w', w'.links[s].up)
    {
      var up := w.links[s].up;
      assert GoodUp(json, w, up);
      if up != [] && (|up| == 2 || !up[0].Hail?) {
        GoodAckKept(json, w, w', e, up[|up| - 1]);
      }
    }
  }

  lemma ArrivalKept(json: Bytes -> bool, w: World, w': World, e: Relay.Event, a: nat)
    requires Rendezvous.Inv(w.relay) && Few(w) && Arrived(json, w) && Issued(w) && a in w.relay.acks
    requires Relay.Enabled(w.relay, e) && w'.relay == Relay.Next(w.relay, e) && Rendezvous.Inv(w'.relay) && Few(w')
    requires Apart(w, w') && a in w'.answers && w'.answers[a] == w.answers[a]
    ensures a in w'.relay.acks && GoodArrival(json, w', a)
  {
    assert GoodArrival(json, w, a);
    hide Relay.Next, Relay.Enabled, Rendezvous.Inv, Answerable, Carries, Named;
    Relay.AcksPersist(w.relay, e);
    NamedKept(w.relay, e, w.relay.acks[a].msgId, w.past[w.answers[a]]);
    if w.answers[a] == |w.past| - 1 && w'.relay.acks[a].pc.Taking? {
      TakingBefore(w.relay, e, a);
      StillAnswerable(json, w, e, a);
    }
    hide GoodArrival, Arrived, Issued;
    ArrivalFrame(json, w, w', a);
  }

  lemma ArrivalFrame(json: Bytes -> bool, w: World, w': World, a: nat)
    requires a in w.relay.acks && GoodArrival(json, w, a) && Apart(w, w')
    requires a in w'.relay.acks && a in w'.answers && w'.answers[a] == w.answers[a]
    requires w'.relay.acks[a].msgId == w.relay.acks[a].msgId && w'.relay.acks[a].response == w.relay.acks[a].response
    requires Named(w'.relay, w.relay.acks[a].msgId, w.past[w.answers[a]])
    requires w.answers[a] == |w.past| - 1 && w'.relay.acks[a].pc.Taking? ==>
               Answerable(w'.relay, w.relay.acks[a].msgId, w.past[|w.past| - 1])
    ensures GoodArrival(json, w', a)
  {}

  /** Two answers to one message id are one and the same. */
  lemma OneTaker(json: Bytes -> bool, w: World, a: nat, b: nat)
    requires Rendezvous.Inv(w.relay) && Few(w) && Arrived(json, w) && NoDuplicates(w.past)
    requires a in w.relay.acks && b in w.relay.acks && w.relay.acks[b].msgId == w.relay.acks[a].msgId
    ensures b == a
  {
    hide Rendezvous.Inv, Carries, Named, Answerable;
    assert GoodArrival(json, w, a) && GoodArrival(json, w, b);
    NamedOnce(w.relay, w.relay.acks[a].msgId, w.past[w.answers[a]], w.past[w.answers[b]]);
  }

  lemma LatestArrival(json: Bytes -> bool, w: World, a: nat)
    requires Arrived(json, w) && a in w.relay.acks && w.past != []
    requires w.answers[a] == |w.past| - 1 && w.relay.acks[a].pc.Taking?
    ensures Answerable(w.relay, w.relay.acks[a].msgId, w.past[|w.past| - 1])
  {
    assert GoodArrival(json, w, a);
  }

  /** The latest answer, still to be taken: no other acknowledgement can take its entry away. */
  lemma StillAnswerable(json: Bytes -> bool, w: World, e: Relay.Event, a: nat)
    requires Rendezvous.Inv(w.relay) && Few(w) && Arrived(json, w) && a in w.relay.acks
    requires w.past != [] && w.answers[a] == |w.past| - 1 && w.relay.acks[a].pc.Taking? && e != Relay.AckTake(a)
    requires Relay.Enabled(w.relay, e) && Rendezvous.Inv(Relay.Next(w.relay, e)) && NoDuplicates(w.past)
    requires Few(w.(relay := Relay.Next(w.relay, e)))
    ensures Answerable(Relay.Next(w.relay, e), w.relay.acks[a].msgId, w.past[|w.past| - 1])
  {
    LatestArrival(json, w, a);
    hide Relay.Next, Rendezvous.Inv, Answerable, Arrived, NoDuplicates, Few;
    if e.AckTake? && w.relay.acks[e.ack].msgId == w.relay.acks[a].msgId {
      OneTaker(json, w, a, e.ack);
    }
    hide Relay.Enabled;
    AnswerableKept(w.relay, e, w.relay.acks[a].msgId, w.past[|w.past| - 1]);
  }

  lemma TakingBefore(m: Relay.State, e: Relay.Event, a: nat)
    requires Relay.Enabled(m, e) && a in m.acks && a in Relay.Next(m, e).acks && Relay.Next(m, e).acks[a].pc.Taking?
    ensures m.acks[a].pc.Taking? && e != Relay.AckTake(a)
  {}

  lemma ArrivedKept(json: Bytes -> bool, w: World, w': World, e: Relay.Event)
    requires Rendezvous.Inv(w.relay) && Few(w) && Arrived(json, w) && Issued(w) && !e.AckArrive?
    requires Relay.Enabled(w.relay, e) && w'.relay == Relay.Next(w.relay, e) && Rendezvous.Inv(w'.relay) && Few(w')
    requires Apart(w, w') && w'.answers == w.answers
    ensures Arrived(json, w')
  {
    hide Relay.Next, Relay.Enabled, GoodArrival, Rendezvous.Inv, Issued;
    Relay.Arrivals(w.relay, e);
    forall a | a in w'.relay.acks
      ensures GoodArrival(json, w', a)
    {
      ArrivalKept(json, w, w', e, a);
    }
  }

  lemma SendsKept(w: World, w': World, e: Relay.Event)
    requires Sends(w) && Relay.Enabled(w.relay, e) && w'.relay == Relay.Next(w.relay, e) && !e.Invoke?
    requires Apart(w, w') && w'.outbox == w.outbox && w'.waiting == w.waiting
    ensures Sends(w')
  {
    hide Relay.Next, Relay.Enabled;
    Relay.Arrivals(w.relay, e);
    Relay.CallsPersist(w.relay, e);
    assert forall k :: k in w'.relay.calls ==> Relay.SameCall(w.relay.calls[k], w'.relay.calls[k]);
  }

  lemma NoTicketKept(m: Relay.State, e: Relay.Event, id: Id, s: nat)
    requires Rendezvous.Inv(m) && Relay.Enabled(m, e) && NoTicket(m, s) && !Leads(m, id, s)
    requires e.Admit? ==> m.calls[e.call].to == id
    ensures NoTicket(Relay.Next(m, e), s)
  {
    if e.Invoke? {
      hide Rendezvous.Inv;
    } else {
      hide Relay.Next;
      if e.Admit? {
        Rendezvous.ShapeOf(m, e.call);
        AdmitTicket(m, e.call, id);
      }
      hide Rendezvous.Inv, Relay.Enabled;
      TicketsPersist(m, e);
    }
  }

  lemma TicketsPersist(m: Relay.State, e: Relay.Event)
    requires Relay.Enabled(m, e) && !e.Invoke?
    ensures forall k :: k in Relay.Next(m, e).calls ==>
              k in m.calls && (Relay.Next(m, e).calls[k].ticket == m.calls[k].ticket || e == Relay.Admit(k))
  {
    hide Relay.Next, Relay.Enabled;
    Relay.Arrivals(m, e);
    Relay.CallsPersist(m, e);
  }

  /** A channel that nothing leads to stays like that. */
  lemma UnusedKept(m: Relay.State, e: Relay.Event, id: Id, s: nat)
    requires Rendezvous.Inv(m) && Relay.Enabled(m, e) && Unused(m, id, s)
    requires !e.Register? && !e.AddCommits? && !e.Unregister? && !e.Dequeue? && !e.Close?
    requires forall k :: k in m.calls ==> m.calls[k].to == id
    ensures Unused(Relay.Next(m, e), id, s)
  {
    NoTicketKept(m, e, id, s);
    hide NoTicket, Rendezvous.Inv, Relay.DoAdmit, Relay.DoEnqueue;
    if e.Admit? {
      AdmitEffect(m, e.call, id, s);
    } else if e.Enqueue? {
      EnqueueEffect(m, e.call, s);
      NotBound(m, e.call, s);
      Relay.DevicesFrame(m, e);
    } else {
      hide Relay.Next;
      Relay.DevicesFrame(m, e);
      Relay.ChannelsFrame(m, e);
    }
  }

  lemma NotBound(m: Relay.State, k: nat, s: nat)
    requires NoTicket(m, s)
    ensures !Bound(m, k, s)
  {}

  lemma AdmitTicket(m: Relay.State, k: nat, id: Id)
    requires Relay.Enabled(m, Relay.Admit(k)) && m.calls[k].to == id && m.calls[k].ticket.None?
    ensures var ticket := Relay.DoAdmit(m, k).calls[k].ticket;
            ticket.Some? ==> Leads(m, id, ticket.value.channel)
  {}

  lemma GreetingStep(m: Relay.State, e: Relay.Event, id: Id, s: nat, link: Link, past: seq<Preimage>, cur: Preimage)
    requires Rendezvous.Inv(m) && Relay.Enabled(m, e) && Greeting(m, id, s, link, past, cur)
    requires !e.Register? && !e.AddCommits? && !e.Unregister? && !e.Dequeue? && !e.Close?
    requires AllTo(m, id, past, cur)
    ensures Greeting(Relay.Next(m, e), id, s, link, past, cur)
  {
    hide Relay.Next, Relay.Enabled, Rendezvous.Inv, Unused;
    if Unused(m, id, s) {
      UnusedKept(m, e, id, s);
    }
  }

  lemma AllSends(w: World)
    requires Sends(w)
    ensures AllTo(w.relay, w.nodeId, w.past, w.cur)
  {}

  lemma InboundStep(json: Bytes -> bool, w: World, w': World, e: Relay.Event)
    requires Relay.Enabled(w.relay, e) && w'.relay == Relay.Next(w.relay, e)
    requires !e.Register? && !e.AddCommits? && !e.Unregister? && !e.Dequeue? && !e.Close?
    requires Rendezvous.Inv(w'.relay) && Few(w') && Apart(w, w') && w'.links == w.links && w'.conn == w.conn
    requires Few(w) && Inv(json, w)
    ensures Inbound(w')
  {
    hide Relay.Next, Relay.Enabled, Rendezvous.Inv, Provenance.SlotsBelong, Unacked, AllTo, Issued, View, Sends, Ups,
         Arrived,
         OneAtMost, Spent, Greeting;
    if w.conn.Some? {
      var s := w.conn.value;
      CurUnacked(json, w);
      AllSends(w);
      InboundKept(w.relay, e, w.nodeId, s, w.links[s].down, w.past, w.cur);
      GreetingStep(w.relay, e, w.nodeId, s, w.links[s], w.past, w.cur);
    }
  }

  lemma ApartKeeps(w: World, w': World)
    requires Apart(w, w') && Issued(w) && View(w)
    ensures Issued(w') && View(w')
  {
    hide Ownership.Inv;
  }

  /** A step of the relay, during which the device's connections keep their frames. */
  lemma RelayMoves(json: Bytes -> bool, w: World, w': World, e: Relay.Event)
    requires Inv(json, w) && Relay.Enabled(w.relay, e) && w'.relay == Relay.Next(w.relay, e)
    requires !e.Register? && !e.AddCommits? && !e.Unregister? && !e.Dequeue? && !e.Close? && !e.AckArrive?
    requires Apart(w, w') && w'.links == w.links && w'.conn == w.conn && w'.answers == w.answers
    requires Few(w) && Few(w')
    ensures Relayed(w') && Issued(w') && View(w') && Ups(json, w') && Arrived(json, w') && Inbound(w')
  {
    hide Relay.Next, Relay.Enabled, Rendezvous.Inv, Provenance.Inv, Few;
    RelayedStep(w, w', e);
    InboundStep(json, w, w', e);
    hide GoodUp, GoodArrival, Inbound, Sends, Ups, Arrived, Issued, View;
    UpsKept(json, w, w', e);
    ArrivedKept(json, w, w', e);
    ApartKeeps(w, w');
  }

  lemma RelayStepInv(json: Bytes -> bool, w: World, w': World, e: Relay.Event)
    requires Internal(e) && Relay.Enabled(w.relay, e) && w' == w.(relay := Relay.Next(w.relay, e))
    requires Few(w) && Few(w') && Inv(json, w)
    ensures Inv(json, w')
  {
    hide Relay.Next, Relay.Enabled;
    RelayMoves(json, w, w', e);
    hide Relayed, Issued, View, Ups, Arrived, Inbound;
    SendsKept(w, w', e);
  }

  lemma ReceiveSendInv(json: Bytes -> bool, w: World, w': World, k: nat)
    requires k in w.outbox && k !in w.relay.calls
    requires w' == w.(outbox := w.outbox - {k},
                      relay := Relay.Next(w.relay, Relay.Invoke(k, w.nodeId, w.outbox[k].preimage, w.outbox[k].payload)))
    requires Few(w) && Few(w') && Inv(json, w)
    ensures Inv(json, w')
  {
    hide Relayed, Issued, View, Ups, Arrived, Inbound;
    RelayMoves(json, w, w', Relay.Invoke(k, w.nodeId, w.outbox[k].preimage, w.outbox[k].payload));
  }
}
