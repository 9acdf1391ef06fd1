/**
 * Loss is final: once the response that a client needs is nowhere, the client stays behind for
 * ever, and no command of its reaches the device again.
 */
module Finality {
  import opened Types
  import opened System
  import opened Replies
  import opened Sync
  import opened Recovery
  import opened Nodes
  import Generations
  import History
  import Links
  import Provenance
  import Relay
  import Rendezvous

  // ---------------------------------------------------------------------------
  // Only delivered messages are acknowledged here
  // ---------------------------------------------------------------------------

  /** Calls that an acknowledgement is about have handed their message over. */
  ghost predicate Settled(m: Relay.State) {
    forall a, c :: Provenance.About(m, a, c) ==> m.calls[c].pc.Waiting? || m.calls[c].pc.Returned?
  }

  lemma SettledStep(json: Bytes -> bool, w: World, w': World, e: Relay.Event)
    requires Relay.Enabled(w.relay, e) && w'.relay == Relay.Next(w.relay, e) && Settled(w.relay)
    requires e.AckArrive? ==> exists p :: Answerable(w.relay, e.msgId, p)
    requires Few(w) && Few(w') && Arrived(json, w) && Rendezvous.Inv(w.relay) && Rendezvous.Inv(w'.relay)
    ensures Settled(w'.relay)
  {
    hide Relay.Next, Relay.Enabled, Arrived, Rendezvous.Inv, Few, Answerable;
    forall a, c | Provenance.About(w'.relay, a, c)
      ensures w'.relay.calls[c].pc.Waiting? || w'.relay.calls[c].pc.Returned?
    {
      hide Settled;
      var o := SettledNow(json, w, e, a);
      SameCall(w, w', e, o, c, w'.relay.acks[a].msgId);
    }
  }

  lemma SameCall(w: World, w': World, e: Relay.Event, o: nat, c: nat, msgId: u32)
    requires Relay.Enabled(w.relay, e) && w'.relay == Relay.Next(w.relay, e) && Few(w) && Few(w')
    requires Rendezvous.Inv(w.relay) && Rendezvous.Inv(w'.relay)
    requires o in w.relay.calls && Rendezvous.HasId(w.relay.calls[o], msgId)
    requires w.relay.calls[o].pc.Waiting? || w.relay.calls[o].pc.Returned?
    requires c in w'.relay.calls && Rendezvous.HasId(w'.relay.calls[c], msgId)
    ensures w'.relay.calls[c].pc.Waiting? || w'.relay.calls[c].pc.Returned?
  {
    hide Relay.Next, Relay.Enabled, Rendezvous.Inv;
    IdsStay(w.relay, e, o, c, msgId);
    Relay.PcFrame(w.relay, e);
  }

  /** Before the step, the acknowledgement's id belonged to a call that had handed its message over. */
  lemma SettledNow(json: Bytes -> bool, w: World, e: Relay.Event, a: nat) returns (o: nat)
    requires Relay.Enabled(w.relay, e) && a in Relay.Next(w.relay, e).acks && Settled(w.relay)
    requires e.AckArrive? ==> exists p :: Answerable(w.relay, e.msgId, p)
    requires Arrived(json, w) && Rendezvous.Inv(w.relay)
    ensures o in w.relay.calls && Rendezvous.HasId(w.relay.calls[o], Relay.Next(w.relay, e).acks[a].msgId)
    ensures w.relay.calls[o].pc.Waiting? || w.relay.calls[o].pc.Returned?
  {
    Relay.Arrivals(w.relay, e);
    Relay.AcksPersist(w.relay, e);
    if a in w.relay.acks {
      hide Relay.Next;
      assert GoodArrival(json, w, a);
      o :| o in w.relay.calls && Rendezvous.HasId(w.relay.calls[o], w.relay.acks[a].msgId);
      assert Provenance.About(w.relay, a, o);
    } else {
      var p :| Answerable(w.relay, e.msgId, p);
      AnswerableNamed(w.relay, e.msgId, p);
      o :| o in w.relay.calls && Rendezvous.HasId(w.relay.calls[o], e.msgId);
    }
  }

  /** An acknowledgement on its way is about a message that was delivered. */
  lemma InTransitAnswerable(json: Bytes -> bool, w: World, e: Event)
    requires Enabled(json, w, e) && Inv(json, w)
    ensures RelayEvent(w, e).Some? && RelayEvent(w, e).value.AckArrive? ==>
              exists p :: Answerable(w.relay, RelayEvent(w, e).value.msgId, p)
  {
    if e.Process? {
      Links.UpCases(json, w, e.channel);
    }
    hide Answerable, Relay.Enabled, Relayed, Issued, View, Sends, Ups, Arrived, Inbound, History.Enabled;
  }

  lemma {:induction false} AlwaysSettled(json: Bytes -> bool, ws: seq<World>, es: seq<Event>, i: nat)
    requires Run(json, ws, es) && i <= |es| && Few(ws[i])
    ensures Settled(ws[i].relay)
    decreases i
  {
    hide Next, Enabled, Few, Inv, RelayEvent;
    if i > 0 {
      hide Init, Settled;
      var w, e := ws[i - 1], es[i - 1];
      Generations.StepBefore(json, ws, es, i);
      AlwaysSettled(json, ws, es, i - 1);
      Generations.RunKeepsInv(json, ws, es, i);
      RelayAfter(json, w, e);
      RelayInvariants(json, w);
      RelayInvariants(json, ws[i]);
      if RelayEvent(w, e).Some? {
        InTransitAnswerable(json, w, e);
        SettledStep(json, w, ws[i], RelayEvent(w, e).value);
      }
    }
  }

  lemma RelayInvariants(json: Bytes -> bool, w: World)
    requires Inv(json, w)
    ensures Arrived(json, w) && Rendezvous.Inv(w.relay) && Provenance.Inv(w.relay)
  {}

  // ---------------------------------------------------------------------------
  // Steps of the relay
  // ---------------------------------------------------------------------------

  /** The response is neither in the hands of the relay nor on its way to the client. */
  ghost predicate Gone(w: World) {
    && !InHand(w) && !InCache(w)
    && (w.waiting.Some? ==> !InSlot(w.relay, w.waiting.value) && !InResult(w.relay, w.waiting.value))
  }

  /** What an acknowledgement under the last consumed preimage is: the latest answer. */
  lemma LatestAnswer(json: Bytes -> bool, w: World, a: nat)
    requires w.past != [] && a in w.relay.acks && Named(w.relay, w.relay.acks[a].msgId, w.past[|w.past| - 1])
    requires Few(w) && Rendezvous.Inv(w.relay) && Arrived(json, w) && Issued(w)
    ensures Answering(w, a)
  {
    assert GoodArrival(json, w, a);
    NamedOnce(w.relay, w.relay.acks[a].msgId, w.past[|w.past| - 1], w.past[w.answers[a]]);
    LastOnce(w, w.answers[a]);
  }

  /** The response does not get back into the hands of a handle_ack run. */
  lemma NotInHand(w: World, w': World, e: Relay.Event)
    requires Internal(e) && Relay.Enabled(w.relay, e) && w' == w.(relay := Relay.Next(w.relay, e))
    requires InHand(w')
    ensures InHand(w)
  {
    var a :| Answering(w', a) && (w'.relay.acks[a].pc.Taking? || w'.relay.acks[a].pc.Storing?);
    AckBefore(w.relay, e, a);
    hide Relay.Next;
    assert Answering(w, a);
  }

  lemma AckBefore(m: Relay.State, e: Relay.Event, a: nat)
    requires Relay.Enabled(m, e) && !e.AckArrive? && a in Relay.Next(m, e).acks
    ensures a in m.acks
    ensures Relay.Next(m, e).acks[a].pc.Taking? || Relay.Next(m, e).acks[a].pc.Storing? ==>
              m.acks[a].pc.Taking? || m.acks[a].pc.Storing?
    ensures Relay.Next(m, e).acks[a].pc.Completing? ==>
              m.acks[a].pc == Relay.Next(m, e).acks[a].pc || (e == Relay.AckStore(a) && m.acks[a].pc.Storing?
                && m.acks[a].pc.entry.call == Relay.Next(m, e).acks[a].pc.call)
  {}

  lemma StoredBy(m: Relay.State, e: Relay.Event, p: Preimage)
    requires Internal(e) && Relay.Enabled(m, e) && p !in m.tables.cache && p in Relay.Next(m, e).tables.cache
    ensures e.AckStore? && m.acks[e.ack].pc.entry.preimage == p
  {
    if !e.Check? && !e.AckStore? && !e.Cleanup? {
      Relay.CacheFrame(m, e);
      assert false;
    }
  }

  lemma StoringNamed(m: Relay.State, a: nat)
    requires Rendezvous.Inv(m) && a in m.acks && m.acks[a].pc.Storing?
    ensures Named(m, m.acks[a].msgId, m.acks[a].pc.entry.preimage)
    ensures m.acks[a].pc.entry.call in m.calls && Rendezvous.HasId(m.calls[m.acks[a].pc.entry.call], m.acks[a].msgId)
    ensures m.calls[m.acks[a].pc.entry.call].preimage == m.acks[a].pc.entry.preimage
  {
    var c := m.acks[a].pc.entry.call;
    assert Rendezvous.InHand(m.acks, a, c);
    assert Rendezvous.Expects(m.calls, c, m.acks[a].msgId);
    assert c in m.calls && Rendezvous.HasId(m.calls[c], m.acks[a].msgId);
  }

  lemma NotInCache(json: Bytes -> bool, w: World, w': World, e: Relay.Event)
    requires Internal(e) && Relay.Enabled(w.relay, e) && w' == w.(relay := Relay.Next(w.relay, e))
    requires InCache(w')
    requires Few(w) && Rendezvous.Inv(w.relay) && Arrived(json, w) && Issued(w)
    ensures InCache(w) || InHand(w)
  {
    if !InCache(w) {
      StoredBy(w.relay, e, w.past[|w.past| - 1]);
      hide Relay.Next;
      StoringNamed(w.relay, e.ack);
      LatestAnswer(json, w, e.ack);
    }
  }

  /** A send that is not about to return the response does not get it, unless the cache or an answer has it. */
  lemma NotInResult(w: World, w': World, e: Relay.Event, k: nat)
    requires Internal(e) && Relay.Enabled(w.relay, e) && w' == w.(relay := Relay.Next(w.relay, e))
    requires k in w.relay.calls && w.past != [] && w.relay.calls[k].preimage == w.past[|w.past| - 1]
    requires InResult(w'.relay, k)
    ensures InResult(w.relay, k) || InSlot(w.relay, k) || InCache(w)
  {
    if !InResult(w.relay, k) {
      BecomesResult(w.relay, e, k);
      hide Relay.Next;
    }
  }

  lemma BecomesResult(m: Relay.State, e: Relay.Event, k: nat)
    requires Relay.Enabled(m, e) && k in m.calls && !InResult(m, k) && InResult(Relay.Next(m, e), k)
    ensures (e == Relay.Check(k) && m.calls[k].preimage in m.tables.cache)
            || (e == Relay.Receive(k) && m.calls[k].pc.Waiting? && m.calls[k].slot.Full?)
  {
    Relay.PcFrame(m, e);
    if e == Relay.Check(k) || e == Relay.Admit(k) || e == Relay.Insert(k) || e == Relay.Enqueue(k) || e == Relay.Remove(k)
       || e == Relay.Receive(k) || e == Relay.SeeClosed(k) || e == Relay.TimeOut(k) {
    } else {
      hide Relay.Next;
    }
  }

  /** Nor does it get it in its one-shot. */
  lemma NotInSlot(json: Bytes -> bool, w: World, w': World, e: Relay.Event, k: nat)
    requires Internal(e) && Relay.Enabled(w.relay, e) && w' == w.(relay := Relay.Next(w.relay, e))
    requires k in w.relay.calls && w.past != [] && w.relay.calls[k].preimage == w.past[|w.past| - 1]
    requires InSlot(w'.relay, k)
    requires Few(w) && Rendezvous.Inv(w.relay) && Provenance.SlotsBelong(w.relay) && Settled(w.relay)
    requires Arrived(json, w) && Issued(w)
    ensures InSlot(w.relay, k) || InHand(w)
  {
    hide Relay.Next, Relay.Enabled, Rendezvous.Inv, Provenance.SlotsBelong, Settled, Few, Arrived, Issued, InHand;
    WaitingBefore(w.relay, e, k);
    if w'.relay.calls[k].slot.Full? {
      FilledBy(w.relay, e, k);
      if w.relay.calls[k].slot.Full? {
        AskedBefore(w.relay, k);
      } else {
        CompletingSettled(w.relay, e.ack, k);
      }
    } else {
      var a :| a in w'.relay.acks && w'.relay.acks[a].pc == Relay.Completing(k);
      AckBefore(w.relay, e, a);
      if w.relay.acks[a].pc.Storing? {
        StoringNamed(w.relay, a);
        LatestAnswer(json, w, a);
        Held(w, a);
      } else {
        CompletingSettled(w.relay, a, k);
      }
    }
  }

  lemma Held(w: World, a: nat)
    requires Answering(w, a) && w.relay.acks[a].pc.Storing?
    ensures InHand(w)
  {}

  lemma WaitingBefore(m: Relay.State, e: Relay.Event, k: nat)
    requires Relay.Enabled(m, e) && k in m.calls && Relay.At(Relay.Next(m, e), k, Relay.Waiting)
    ensures m.calls[k].pc.Waiting? || (e == Relay.Enqueue(k) && m.calls[k].pc == Relay.Enqueuing)
  {
    Relay.PcFrame(m, e);
    if e == Relay.Check(k) || e == Relay.Admit(k) || e == Relay.Insert(k) || e == Relay.Enqueue(k) || e == Relay.Remove(k)
       || e == Relay.Receive(k) || e == Relay.SeeClosed(k) || e == Relay.TimeOut(k) {
    } else {
      hide Relay.Next;
    }
  }

  lemma FilledBy(m: Relay.State, e: Relay.Event, k: nat)
    requires Relay.Enabled(m, e) && k in m.calls && k in Relay.Next(m, e).calls && Relay.Next(m, e).calls[k].slot.Full?
    ensures m.calls[k].slot.Full? || (e.AckComplete? && e.ack in m.acks && m.acks[e.ack].pc == Relay.Completing(k))
  {
    Provenance.SlotSources(m, e, k);
  }

  /** A filled one-shot belongs to a call that has handed its message over. */
  lemma AskedBefore(m: Relay.State, k: nat)
    requires Provenance.SlotsBelong(m) && Settled(m) && k in m.calls && m.calls[k].slot.Full?
    ensures m.calls[k].pc.Waiting? || m.calls[k].pc.Returned?
  {
    var a :| Provenance.About(m, a, k) && m.acks[a].response == m.calls[k].slot.response;
  }

  lemma CompletingSettled(m: Relay.State, a: nat, k: nat)
    requires Rendezvous.Inv(m) && Settled(m) && a in m.acks && m.acks[a].pc == Relay.Completing(k)
    ensures k in m.calls && (m.calls[k].pc.Waiting? || m.calls[k].pc.Returned?)
  {
    assert Rendezvous.InHand(m.acks, a, k);
    assert Rendezvous.Expects(m.calls, k, m.acks[a].msgId);
    assert Provenance.About(m, a, k);
  }

  lemma RelayStaysGone(json: Bytes -> bool, w: World, w': World, e: Relay.Event)
    requires Internal(e) && Relay.Enabled(w.relay, e) && w' == w.(relay := Relay.Next(w.relay, e))
    requires Gone(w) && Behind(w) && Settled(w.relay) && Few(w) && Inv(json, w)
    ensures Gone(w')
  {
    Relay.Arrivals(w.relay, e);
    assert w.waiting.Some? && w.waiting.value in w.relay.calls ==>
             w.relay.calls[w.waiting.value].preimage == w.past[|w.past| - 1];
    hide Relay.Next, Relay.Enabled, Rendezvous.Inv, Provenance.SlotsBelong, Provenance.CacheBelongs, Provenance.ResultsBelong,
         Settled, Few, Issued, View, Sends, Ups, Arrived, Inbound, InHand, InCache, InSlot, InResult;
    if InHand(w') {
      NotInHand(w, w', e);
    }
    if InCache(w') {
      NotInCache(json, w, w', e);
    }
    if w.waiting.Some? {
      var k := w.waiting.value;
      if InResult(w'.relay, k) {
        KnownCall(w'.relay, k);
        NotInResult(w, w', e, k);
      }
      if InSlot(w'.relay, k) {
        KnownCall(w'.relay, k);
        NotInSlot(json, w, w', e, k);
      }
    }
  }

  lemma KnownCall(m: Relay.State, k: nat)
    ensures InResult(m, k) || InSlot(m, k) ==> k in m.calls
  {}

  // ---------------------------------------------------------------------------
  // All other steps
  // ---------------------------------------------------------------------------

  /** The relay has nothing new that matters, and no acknowledgement sets out. */
  lemma StillGone(w: World, w': World)
    requires w' == w.(relay := w'.relay, client := w'.client, outbox := w'.outbox, waiting := w'.waiting, links := w'.links,
                      conn := w'.conn, answers := w'.answers)
    requires w'.relay.acks == w.relay.acks && w'.answers == w.answers && w'.relay.tables.cache == w.relay.tables.cache
    requires forall k :: k in w'.relay.calls ==>
               if k in w.relay.calls then w'.relay.calls[k] == w.relay.calls[k] else w'.relay.calls[k].pc == Relay.Checking
    requires forall s :: s in w'.links && HasAck(w'.links[s].up) ==> s in w.links && HasAck(w.links[s].up)
    requires w'.waiting == w.waiting || w'.waiting == None || w'.waiting.value !in w'.relay.calls
    requires !Located(w)
    ensures !Located(w')
  {
    HandBefore(w, w');
    FramesBefore(w, w');
    hide InHand, InFrames;
    if w'.waiting.Some? {
      SlotBefore(w.relay, w'.relay, w'.waiting.value);
    }
    hide InSlot;
  }

  lemma HandBefore(w: World, w': World)
    requires w'.relay.acks == w.relay.acks && w'.answers == w.answers && w'.past == w.past
    ensures InHand(w') ==> InHand(w)
  {
    forall a | Answering(w', a) ensures Answering(w, a) {}
  }

  lemma FramesBefore(w: World, w': World)
    requires forall s :: s in w'.links && HasAck(w'.links[s].up) ==> s in w.links && HasAck(w.links[s].up)
    ensures InFrames(w') ==> InFrames(w)
  {}

  lemma SlotBefore(m: Relay.State, m': Relay.State, k: nat)
    requires m'.acks == m.acks
    requires k in m'.calls ==> if k in m.calls then m'.calls[k] == m.calls[k] else m'.calls[k].pc == Relay.Checking
    ensures InSlot(m', k) ==> InSlot(m, k)
  {}

  lemma EndsStayGone(json: Bytes -> bool, w: World, e: Event)
    requires e.ClientSend? || e.ClientGiveUp? || e.LoseSend? || e.Connect? || e.Disconnect?
    requires Enabled(json, w, e) && !Located(w)
    ensures !Located(Next(json, w, e))
  {
    hide Located, NewChannel;
    StillGone(w, Next(json, w, e));
  }

  lemma InvokeEffect(m: Relay.State, e: Relay.Event)
    requires Relay.Enabled(m, e) && (e.Invoke? || e.Dequeue? || e.Close?)
    ensures var m' := Relay.Next(m, e);
            && m'.tables == m.tables && m'.acks == m.acks
            && forall k :: k in m'.calls ==>
                 if k in m.calls then m'.calls[k] == m.calls[k] else m'.calls[k].pc == Relay.Checking
  {}

  lemma NetStaysGone(json: Bytes -> bool, w: World, e: Event)
    requires e.ReceiveSend? || e.Forward? || e.End?
    requires Enabled(json, w, e) && !Located(w)
    ensures !Located(Next(json, w, e))
  {
    hide Located, Relay.Next, Relay.Enabled, Enabled, Next;
    var step := NetMoves(json, w, e);
    InvokeEffect(w.relay, step);
    StillGone(w, Next(json, w, e));
  }

  lemma ProcessStaysGone(json: Bytes -> bool, w: World, s: nat, a: nat)
    requires w.Open(s) && w.links[s].up != [] && a !in w.relay.acks && !Located(w) && Inv(json, w)
    ensures !Located(DoProcess(w, s, a))
  {
    assert Ups(json, w) && !InFrames(w);
    OnlyHail(json, w, s);
    HailPasses(w, s, a);
    hide Inv, Located, Ups, InFrames, DoProcess;
    StillGone(w, DoProcess(w, s, a));
  }

  lemma HailPasses(w: World, s: nat, a: nat)
    requires w.Open(s) && a !in w.relay.acks && |w.links[s].up| == 1 && w.links[s].up[0].Hail?
    ensures var w' := DoProcess(w, s, a);
            && w' == w.(relay := w'.relay, links := w.links[s := w.links[s].(up := [])])
            && w'.relay.acks == w.relay.acks && w'.relay.tables.cache == w.relay.tables.cache
            && w'.relay.calls == w.relay.calls
  {
    assert w.links[s].up[1..] == [];
    FrameArrives(w.relay, Relay.Register(w.nodeId, w.links[s].up[0].commits, [], s));
    hide Relay.Next;
  }

  lemma OnlyHail(json: Bytes -> bool, w: World, s: nat)
    requires s in w.links && w.links[s].up != [] && !InFrames(w) && Ups(json, w)
    ensures |w.links[s].up| == 1 && w.links[s].up[0].Hail?
  {
    assert GoodUp(json, w, w.links[s].up);
    assert !HasAck(w.links[s].up);
  }

  lemma ResultStaysGone(json: Bytes -> bool, w: World, now: nat)
    requires Enabled(json, w, ClientResult(now)) && !Located(w)
    ensures !Located(DoResult(json, w, now)) && DoResult(json, w, now).client == w.client
  {
    assert !InResult(w.relay, w.waiting.value);
    hide Located;
    StillGone(w, DoResult(json, w, now));
  }

  /** A response that is nowhere is nowhere after any step, and the client stays behind. */
  lemma StaysLost(json: Bytes -> bool, w: World, e: Event)
    requires Enabled(json, w, e) && Behind(w) && !Located(w) && Settled(w.relay) && Few(w) && Inv(json, w)
    ensures var w' := Next(json, w, e); Behind(w') && !Located(w') && w'.past == w.past && w'.cur == w.cur
  {
    hide Few, Inv, Settled, Behind, Relay.Next, Relay.Enabled, DoProcess, DoHandle, DoResult, Located, History.Next,
         NewChannel;
    match e
    case ClientResult(now) =>
      ResultStaysGone(json, w, now);
      SameBehind(w, Next(json, w, e));
    case RelayStep(step) =>
      RelayStepLost(json, w, Next(json, w, e), step);
      SameBehind(w, Next(json, w, e));
    case Process(s, a) =>
      ProcessStaysGone(json, w, s, a);
      SameBehind(w, Next(json, w, e));
    case Handle(_, _, _, _, _, _) => NotHandling(json, w, e);
    case ReceiveSend(_) =>
      NetStaysGone(json, w, e);
      SameBehind(w, Next(json, w, e));
    case Forward(_) =>
      NetStaysGone(json, w, e);
      SameBehind(w, Next(json, w, e));
    case End(_) =>
      NetStaysGone(json, w, e);
      SameBehind(w, Next(json, w, e));
    case _ =>
      EndsStayGone(json, w, e);
      SameBehind(w, Next(json, w, e));
  }

  lemma SameBehind(w: World, w': World)
    requires w'.client == w.client && w'.nodeId == w.nodeId && w'.past == w.past && w'.cur == w.cur
    ensures Behind(w') <==> Behind(w)
  {}

  lemma RelayStepLost(json: Bytes -> bool, w: World, w': World, e: Relay.Event)
    requires Internal(e) && Relay.Enabled(w.relay, e) && w' == w.(relay := Relay.Next(w.relay, e))
    requires !Located(w) && Behind(w) && Settled(w.relay) && Few(w) && Inv(json, w)
    ensures !Located(w')
  {
    hide Relay.Next, Relay.Enabled, Inv, Few, Settled, Behind;
    RelayStaysGone(json, w, w', e);
  }

  // ---------------------------------------------------------------------------
  // What follows for every run
  // ---------------------------------------------------------------------------

  /** Once the response that the client needs is nowhere, it stays nowhere, and the client stays behind. */
  lemma {:induction false} LossIsFinal(json: Bytes -> bool, ws: seq<World>, es: seq<Event>, i: nat, j: nat)
    requires Run(json, ws, es) && i <= j <= |es| && Few(ws[j])
    requires Behind(ws[i]) && !Located(ws[i])
    ensures Behind(ws[j]) && !Located(ws[j]) && ws[j].past == ws[i].past && ws[j].cur == ws[i].cur
    decreases j
  {
    hide Init, Next, Enabled, Few, Inv, Behind, Located;
    if i < j {
      Generations.StepBefore(json, ws, es, j);
      LossIsFinal(json, ws, es, i, j - 1);
      AlwaysSettled(json, ws, es, j - 1);
      StaysLost(json, ws[j - 1], es[j - 1]);
    }
  }

  /** And the device handles no command of the client any more. */
  lemma NothingHandled(json: Bytes -> bool, ws: seq<World>, es: seq<Event>, i: nat, j: nat)
    requires Run(json, ws, es) && i <= j < |es| && Few(ws[j])
    requires Behind(ws[i]) && !Located(ws[i])
    ensures !es[j].Handle?
  {
    hide Init, Next, Few, Inv, Behind, Located;
    LossIsFinal(json, ws, es, i, j);
    Generations.RunKeepsInv(json, ws, es, j);
    if es[j].Handle? {
      NotHandling(json, ws[j], es[j]);
    }
  }
}
