/**
 * A client that is behind can catch up: the response with the device's live preimage is still
 * somewhere, unless it was lost in one of a few named ways; and while it is in the relay's
 * cache, one more send brings the client and the device back together.
 */
module Recovery {
  import opened Types
  import opened Router
  import opened Device
  import opened Nodes
  import opened System
  import opened Replies
  import opened Sync
  import Generations
  import History
  import Links
  import Relay
  import Rendezvous
  import Provenance
  import Wire

  // ---------------------------------------------------------------------------
  // Where the response can be
  // ---------------------------------------------------------------------------

  /** In an acknowledgement on its way from the device. */
  ghost predicate InFrames(w: World) {
    exists s :: s in w.links && HasAck(w.links[s].up)
  }

  /** In a handle_ack run that has not put it into the cache yet. */
  ghost predicate InHand(w: World) {
    exists a :: Answering(w, a) && (w.relay.acks[a].pc.Taking? || w.relay.acks[a].pc.Storing?)
  }

  predicate Answering(w: World, a: nat) {
    a in w.relay.acks && a in w.answers && w.past != [] && w.answers[a] == |w.past| - 1
  }

  predicate InCache(w: World) {
    w.past != [] && w.past[|w.past| - 1] in w.relay.tables.cache
  }

  /** In the one-shot channel that the client's current send waits on, or about to be put there. */
  ghost predicate InSlot(m: Relay.State, k: nat) {
    && Relay.At(m, k, Relay.Waiting)
    && (m.calls[k].slot.Full? || exists a :: a in m.acks && m.acks[a].pc == Relay.Completing(k))
  }

  /** In a SEND_RESULT on its way to the client. */
  predicate InResult(m: Relay.State, k: nat) {
    k in m.calls && m.calls[k].pc.Returned? && m.calls[k].pc.status == Wire.SEND_OK
  }

  ghost predicate Located(w: World) {
    InFrames(w) || InHand(w) || InCache(w)
    || (w.waiting.Some? && (InSlot(w.relay, w.waiting.value) || InResult(w.relay, w.waiting.value)))
  }

  predicate Expired(w: World) {
    InCache(w) && w.relay.tables.cache[w.past[|w.past| - 1]].expiresAt <= w.relay.now
  }

  /** The ways to lose a response. */
  ghost predicate Loss(json: Bytes -> bool, w: World, e: Event) {
    match e
    // the connection broke before the relay had handled the acknowledgement, or the answer was written
    case End(s) => s in w.links && HasAck(w.links[s].up)
    case Handle(_, _, _, _, _, _) => w.conn.Some? && !w.Open(w.conn.value)
    // the cached response expired
    case RelayStep(Cleanup) => Expired(w)
    // or was given to a send whose result nobody waits for any more
    case RelayStep(Check(k)) =>
      && k in w.relay.calls && InCache(w) && w.relay.calls[k].preimage == w.past[|w.past| - 1]
      && (Expired(w) || w.waiting != Some(k))
    // the relay or the client stopped waiting although the response was there
    case RelayStep(TimeOut(k)) => w.waiting == Some(k) && InSlot(w.relay, k)
    case ClientGiveUp => w.waiting.Some? && (InSlot(w.relay, w.waiting.value) || InResult(w.relay, w.waiting.value))
    // the client did not see the preimage at the end of the response
    case ClientResult(_) =>
      && w.waiting.Some? && InResult(w.relay, w.waiting.value) && json(w.relay.calls[w.waiting.value].pc.payload)
    case _ => false
  }

  // ---------------------------------------------------------------------------
  // Steps of the relay
  // ---------------------------------------------------------------------------

  lemma CacheStays(m: Relay.State, e: Relay.Event, p: Preimage)
    requires Relay.Enabled(m, e) && p in m.tables.cache && !e.Register?
    requires e.Check? ==> m.calls[e.call].preimage != p
    requires e.Cleanup? ==> m.tables.cache[p].expiresAt > m.now
    ensures p in Relay.Next(m, e).tables.cache
  {
    match e
    case Check(_) | AckStore(_) | Cleanup =>
    case _ => Relay.CacheFrame(m, e);
  }

  /** A send that has a response, or is about to get one, keeps it until it returns it. */
  lemma SlotStays(m: Relay.State, e: Relay.Event, k: nat)
    requires Relay.Enabled(m, e) && InSlot(m, k) && e != Relay.TimeOut(k)
    requires m.serials <= Wire.U32_SIZE && Rendezvous.Inv(m)
    ensures InSlot(Relay.Next(m, e), k) || InResult(Relay.Next(m, e), k)
  {
    if m.calls[k].slot.Full? {
      hide Relay.Next;
      FullStays(m, e, k);
    } else {
      var a :| a in m.acks && m.acks[a].pc == Relay.Completing(k);
      if e != Relay.AckComplete(a) {
        assert Rendezvous.InHand(m.acks, a, k);
        assert Rendezvous.Expects(m.calls, k, m.acks[a].msgId);
        hide Relay.Next, Rendezvous.Inv;
        CompletingStays(m, e, a);
        WaitGoesOn(m, e, k);
      }
    }
  }

  lemma FullStays(m: Relay.State, e: Relay.Event, k: nat)
    requires Rendezvous.Inv(m) && Relay.Enabled(m, e) && k in m.calls && m.calls[k].slot.Full? && m.calls[k].pc.Waiting?
    requires e != Relay.TimeOut(k)
    ensures InSlot(Relay.Next(m, e), k) || InResult(Relay.Next(m, e), k)
  {
    Rendezvous.FullKept(m, e, k);
    Relay.PcFrame(m, e);
    if e == Relay.Receive(k) {
    } else {
      WaitGoesOn(m, e, k);
    }
  }

  lemma WaitGoesOn(m: Relay.State, e: Relay.Event, k: nat)
    requires Relay.Enabled(m, e) && k in m.calls && m.calls[k].pc.Waiting? && !m.calls[k].slot.Dropped?
    requires e != Relay.TimeOut(k) && e != Relay.Receive(k)
    ensures k in Relay.Next(m, e).calls && Relay.Next(m, e).calls[k].pc.Waiting?
  {
    Relay.CallPersists(m, e, k);
    Relay.PcFrame(m, e);
  }

  lemma CompletingStays(m: Relay.State, e: Relay.Event, a: nat)
    requires Relay.Enabled(m, e) && a in m.acks && m.acks[a].pc.Completing? && e != Relay.AckComplete(a)
    ensures a in Relay.Next(m, e).acks && Relay.Next(m, e).acks[a].pc == m.acks[a].pc
  {}

  lemma ReturnedStays(m: Relay.State, e: Relay.Event, k: nat)
    requires Relay.Enabled(m, e) && InResult(m, k)
    ensures InResult(Relay.Next(m, e), k)
  {
    Relay.CallPersists(m, e, k);
    Relay.PcFrame(m, e);
    hide Relay.Next;
  }

  /** Only its own steps move a handle_ack run on. */
  lemma HandStays(m: Relay.State, e: Relay.Event, a: nat)
    requires Relay.Enabled(m, e) && a in m.acks && e != Relay.AckTake(a) && e != Relay.AckStore(a)
    requires e != Relay.AckComplete(a)
    ensures a in Relay.Next(m, e).acks && (!e.AckArrive? ==> Relay.Next(m, e).acks[a].pc == m.acks[a].pc)
  {}

  lemma TakeEffect(m: Relay.State, a: nat)
    requires Relay.Enabled(m, Relay.AckTake(a)) && m.acks[a].msgId in m.tables.pending
    ensures a in Relay.DoAckTake(m, a).acks && Relay.DoAckTake(m, a).acks[a].pc.Storing?
  {}

  lemma StoreEffect(m: Relay.State, a: nat)
    requires Relay.Enabled(m, Relay.AckStore(a))
    ensures m.acks[a].pc.entry.preimage in Relay.DoAckStore(m, a).tables.cache
  {}

  /** The answer that a handle_ack run has taken goes to the cache entry of the preimage it answers. */
  lemma StoringUnder(json: Bytes -> bool, w: World, a: nat)
    requires Rendezvous.Inv(w.relay) && Few(w) && Arrived(json, w) && Answering(w, a) && w.relay.acks[a].pc.Storing?
    ensures w.relay.acks[a].pc.entry.preimage == w.past[|w.past| - 1]
  {
    var c := w.relay.acks[a].pc.entry.call;
    assert GoodArrival(json, w, a);
    assert Rendezvous.InHand(w.relay.acks, a, c);
    assert Rendezvous.Expects(w.relay.calls, c, w.relay.acks[a].msgId);
    assert Named(w.relay, w.relay.acks[a].msgId, w.relay.acks[a].pc.entry.preimage);
    NamedOnce(w.relay, w.relay.acks[a].msgId, w.relay.acks[a].pc.entry.preimage, w.past[|w.past| - 1]);
  }

  lemma HandGoesOn(json: Bytes -> bool, w: World, w': World, e: Relay.Event, a: nat)
    requires Internal(e) && Relay.Enabled(w.relay, e) && w' == w.(relay := Relay.Next(w.relay, e))
    requires Answering(w, a) && (w.relay.acks[a].pc.Taking? || w.relay.acks[a].pc.Storing?)
    requires Rendezvous.Inv(w.relay) && Few(w) && Arrived(json, w)
    ensures InHand(w') || InCache(w')
  {
    hide Few, Arrived, Rendezvous.Inv, Relay.DoAckTake, Relay.DoAckStore;
    if e == Relay.AckTake(a) {
      TakenFrom(json, w, a);
      TakeEffect(w.relay, a);
      assert Answering(w', a);
    } else if e == Relay.AckStore(a) {
      StoringUnder(json, w, a);
      StoreEffect(w.relay, a);
    } else {
      hide Relay.Next;
      HandStays(w.relay, e, a);
      assert Answering(w', a);
    }
  }

  lemma TakenFrom(json: Bytes -> bool, w: World, a: nat)
    requires Arrived(json, w) && Answering(w, a) && w.relay.acks[a].pc.Taking?
    ensures w.relay.acks[a].msgId in w.relay.tables.pending
  {
    assert GoodArrival(json, w, a);
  }

  lemma HitEffect(m: Relay.State, k: nat)
    requires Relay.Enabled(m, Relay.Check(k))
    requires var p := m.calls[k].preimage; p in m.tables.cache && m.tables.cache[p].expiresAt > m.now
    ensures InResult(Relay.DoCheck(m, k), k)
  {}

  lemma CacheGoesOn(json: Bytes -> bool, w: World, w': World, e: Relay.Event)
    requires Internal(e) && Relay.Enabled(w.relay, e) && w' == w.(relay := Relay.Next(w.relay, e))
    requires InCache(w) && !Loss(json, w, RelayStep(e))
    ensures InCache(w') || (w'.waiting.Some? && InResult(w'.relay, w'.waiting.value))
  {
    if e.Check? && w.relay.calls[e.call].preimage == w.past[|w.past| - 1] {
      HitEffect(w.relay, e.call);
    } else {
      CacheStays(w.relay, e, w.past[|w.past| - 1]);
    }
  }

  lemma RelayGoesOn(json: Bytes -> bool, w: World, w': World, e: Relay.Event)
    requires Internal(e) && Relay.Enabled(w.relay, e) && w' == w.(relay := Relay.Next(w.relay, e))
    requires Located(w) && !Loss(json, w, RelayStep(e))
    requires Rendezvous.Inv(w.relay) && Few(w) && Arrived(json, w)
    ensures Located(w')
  {
    if InFrames(w) {
      assert InFrames(w');
    } else if InHand(w) {
      var a :| Answering(w, a) && (w.relay.acks[a].pc.Taking? || w.relay.acks[a].pc.Storing?);
      HandGoesOn(json, w, w', e, a);
    } else if InCache(w) {
      CacheGoesOn(json, w, w', e);
    } else if InResult(w.relay, w.waiting.value) {
      ReturnedStays(w.relay, e, w.waiting.value);
    } else {
      SlotStays(w.relay, e, w.waiting.value);
    }
  }

  // ---------------------------------------------------------------------------
  // All other steps
  // ---------------------------------------------------------------------------

  /** What holds of a response in a relay that only learned of other things. */
  ghost predicate Undisturbed(w: World, w': World) {
    && w'.past == w.past && w'.relay.tables.cache == w.relay.tables.cache
    && (forall k :: k in w.relay.calls ==> k in w'.relay.calls && w'.relay.calls[k] == w.relay.calls[k])
    && (forall a :: a in w.relay.acks ==> a in w'.relay.acks && w'.relay.acks[a] == w.relay.acks[a])
    && (forall a :: a in w.answers ==> a in w'.answers && w'.answers[a] == w.answers[a])
  }

  lemma StillThere(w: World, w': World)
    requires Undisturbed(w, w')
    requires InFrames(w) ==> InFrames(w') || InHand(w')
    requires w'.waiting == w.waiting || w.waiting == None
             || !(InSlot(w.relay, w.waiting.value) || InResult(w.relay, w.waiting.value))
    requires Located(w)
    ensures Located(w')
  {
    if InHand(w) {
      var a :| Answering(w, a) && (w.relay.acks[a].pc.Taking? || w.relay.acks[a].pc.Storing?);
      assert Answering(w', a);
    }
  }

  lemma FrameArrives(m: Relay.State, e: Relay.Event)
    requires Relay.Enabled(m, e) && ((e.Register? && e.recent == []) || e.AddCommits? || e.AckArrive?)
    ensures var m' := Relay.Next(m, e);
            && m'.tables.cache == m.tables.cache && m'.calls == m.calls
            && m'.acks == if !e.AckArrive? then m.acks
                          else m.acks[e.ack := Relay.Ack(e.session, e.msgId, e.response, Relay.Taking)]
  {}

  lemma ProcessUndisturbed(w: World, s: nat, a: nat)
    requires w.Open(s) && w.links[s].up != [] && a !in w.relay.acks && a !in w.answers
    ensures Undisturbed(w, DoProcess(w, s, a))
  {
    hide Relay.Next;
    match w.links[s].up[0]
    case Hail(commits) => FrameArrives(w.relay, Relay.Register(w.nodeId, commits, [], s));
    case Out(UpdateFrame(commits)) => FrameArrives(w.relay, Relay.AddCommits(w.nodeId, commits));
    case Out(AckFrame(msgId, response)) => FrameArrives(w.relay, Relay.AckArrive(a, s, msgId, response));
  }

  /** An acknowledgement stays in transit until it is handled, and then it is in a handle_ack run. */
  lemma FramesGoOn(json: Bytes -> bool, w: World, w': World, s: nat, a: nat)
    requires Links.Passed(w, w', s) && a !in w.relay.acks
    requires w.links[s].up[0].Out? && w.links[s].up[0].frame.AckFrame? ==>
               && w'.answers == w.answers[a := Latest(w)] && w.past != []
               && a in w'.relay.acks && w'.relay.acks[a].pc.Taking?
    requires Ups(json, w) && InFrames(w)
    ensures InFrames(w') || InHand(w')
  {
    Links.UpCases(json, w, s);
    hide Ups, GoodAck;
    var t :| t in w.links && HasAck(w.links[t].up);
    if t == s && w.links[s].up[0].Out? && w.links[s].up[0].frame.AckFrame? {
      assert Answering(w', a);
    } else {
      assert HasAck(w'.links[t].up);
    }
  }

  lemma ProcessGoesOn(json: Bytes -> bool, w: World, s: nat, a: nat)
    requires w.Open(s) && w.links[s].up != [] && a !in w.relay.acks && Located(w) && Inv(json, w)
    ensures Located(DoProcess(w, s, a))
  {
    hide GoodAck, Relayed, Issued, View, Sends, Ups, Inbound, InHand, InFrames, InSlot;
    assert a !in w.answers;
    hide Arrived;
    Links.UpCases(json, w, s);
    ProcessUndisturbed(w, s, a);
    Links.ProcessEffect(w, s, a);
    if InFrames(w) {
      if w.links[s].up[0].Out? && w.links[s].up[0].frame.AckFrame? {
        FrameArrives(w.relay, Relay.AckArrive(a, s, w.links[s].up[0].frame.msgId, w.links[s].up[0].frame.payload));
      }
      hide DoProcess, Undisturbed, Relay.Next, Links.Passed;
      FramesGoOn(json, w, DoProcess(w, s, a), s, a);
    }
    hide Undisturbed;
    StillThere(w, DoProcess(w, s, a));
  }

  /** The client's result arrives: then it is not behind any more, unless the preimage passed for white space. */
  lemma ResultGoesOn(json: Bytes -> bool, w: World, now: nat)
    requires Enabled(json, w, ClientResult(now)) && !Loss(json, w, ClientResult(now))
    requires Located(w) && Behind(DoResult(json, w, now)) && Few(w) && Inv(json, w)
    ensures Located(DoResult(json, w, now))
  {
    var w' := DoResult(json, w, now);
    if InResult(w.relay, w.waiting.value) {
      var a := Generations.ResultLearned(json, w, w.relay.calls[w.waiting.value].pc.payload);
      KnowsCur(w, w');
      assert false;
    }
    hide Inv, Behind, DoResult, Learned;
    Unaffected(w, w');
  }

  lemma KnowsCur(w: World, w': World)
    requires w'.nodeId == w.nodeId && w'.past == w.past && w'.cur == w.cur && Issued(w)
    ensures w'.Their() == Some(w.cur) ==> !Behind(w')
  {}

  lemma Unaffected(w: World, w': World)
    requires w' == w.(client := w'.client, outbox := w'.outbox, waiting := w'.waiting, links := w'.links, conn := w'.conn)
    requires forall s :: s in w.links ==> s in w'.links && w'.links[s].up == w.links[s].up
    requires w'.waiting == w.waiting || w.waiting == None
             || !(InSlot(w.relay, w.waiting.value) || InResult(w.relay, w.waiting.value))
    requires Located(w)
    ensures Located(w')
  {
    hide InSlot, InHand;
    if InFrames(w) {
      var s :| s in w.links && HasAck(w.links[s].up);
      assert HasAck(w'.links[s].up);
    }
    hide InFrames;
    StillThere(w, w');
  }

  /** A step of the device's end or of the network, which moves no acknowledgement. */
  lemma MovedOn(w: World, w': World)
    requires w' == w.(relay := w'.relay, outbox := w'.outbox, links := w'.links)
    requires Undisturbed(w, w')
    requires forall s :: s in w.links ==> s in w'.links && (HasAck(w.links[s].up) ==> w'.links[s].up == w.links[s].up)
    requires Located(w)
    ensures Located(w')
  {
    hide InSlot, InHand, Undisturbed;
    if InFrames(w) {
      var s :| s in w.links && HasAck(w.links[s].up);
      assert HasAck(w'.links[s].up);
    }
    hide InFrames;
    StillThere(w, w');
  }

  lemma EndsGoOn(json: Bytes -> bool, w: World, e: Event)
    requires e.ClientSend? || e.ClientGiveUp? || e.LoseSend? || e.Connect? || e.Disconnect?
    requires Enabled(json, w, e) && !Loss(json, w, e) && Located(w)
    ensures Located(Next(json, w, e))
  {
    assert e.Connect? ==> e.channel !in w.links;
    hide InSlot, InResult, Located;
    Unaffected(w, Next(json, w, e));
  }

  lemma InvokeUndisturbed(m: Relay.State, e: Relay.Event)
    requires Relay.Enabled(m, e) && (e.Invoke? || e.Dequeue? || e.Close?)
    ensures var m' := Relay.Next(m, e);
            && m'.tables == m.tables && m'.acks == m.acks
            && forall k :: k in m.calls ==> k in m'.calls && m'.calls[k] == m.calls[k]
  {}

  lemma NoFrameLost(json: Bytes -> bool, w: World, e: Event)
    requires Enabled(json, w, e) && !Loss(json, w, e)
    ensures e.End? ==> e.channel in w.links && !HasAck(w.links[e.channel].up)
  {
    hide Relay.Enabled, NewChannel, History.Enabled;
  }

  lemma NetGoesOn(json: Bytes -> bool, w: World, e: Event)
    requires e.ReceiveSend? || e.Forward? || e.End?
    requires Enabled(json, w, e) && !Loss(json, w, e) && Located(w)
    ensures Located(Next(json, w, e))
  {
    hide Located, Relay.Next, Relay.Enabled, InSlot, InResult, Enabled, Next, Loss;
    NoFrameLost(json, w, e);
    var step := NetMoves(json, w, e);
    InvokeUndisturbed(w.relay, step);
    MovedOn(w, Next(json, w, e));
  }

  /** Unless a step is one of the named losses, it leaves the response somewhere. */
  lemma GoesOn(json: Bytes -> bool, w: World, e: Event)
    requires Enabled(json, w, e) && !Loss(json, w, e) && Behind(w) && Behind(Next(json, w, e)) && Located(w)
    requires Few(w) && Inv(json, w)
    ensures Located(Next(json, w, e))
  {
    hide Few, Issued, View, Sends, Ups, Inbound, Located, Relay.Enabled, Relay.Next, DoProcess, DoHandle, DoResult,
         Behind;
    match e
    case ClientResult(now) => ResultGoesOn(json, w, now);
    case RelayStep(step) => RelayGoesOn(json, w, Next(json, w, e), step);
    case Process(s, a) => ProcessGoesOn(json, w, s, a);
    case Handle(_, _, _, _, _, _) => NotHandling(json, w, e);
    case ReceiveSend(_) => NetGoesOn(json, w, e);
    case Forward(_) => NetGoesOn(json, w, e);
    case End(_) => NetGoesOn(json, w, e);
    case _ => EndsGoOn(json, w, e);
  }

  /** A client that is behind has nothing on its way to the device. */
  lemma NotHandling(json: Bytes -> bool, w: World, e: Event)
    requires e.Handle? && Behind(w) && Inv(json, w)
    ensures !Enabled(json, w, e)
  {
    if Enabled(json, w, e) {
      Generations.Delivered(json, w);
      KnowsCur(w, w);
    }
  }

  /** When the device has answered over a live connection, the response is on its way. */
  lemma SetsOut(json: Bytes -> bool, w: World, e: Event)
    requires e.Handle? && Enabled(json, w, e) && !Loss(json, w, e) && Inv(json, w)
    ensures Located(DoHandle(w, e))
  {
    assert w.Open(w.conn.value);
    hide Inv, Loss, Enabled, DoHandle, InHand, InSlot, InCache, InResult, Generations.Answers, World.Open, History.Enabled;
    Generations.HandleNext(json, w, e);
    Generations.HandleEffect(json, w, e);
    AnswerInFrames(w, DoHandle(w, e), w.conn.value, w.links[w.conn.value].down[0].msgId, e.doc);
  }

  lemma AnswerInFrames(w: World, w': World, s: nat, msgId: u32, doc: Bytes)
    requires Generations.Answers(w, w', s, msgId, doc) && w.Open(s)
    ensures InFrames(w')
  {
    assert HasAck(w'.links[s].up);
  }

  /** A client that is behind was behind before, or the device has just answered. */
  lemma BehindBefore(json: Bytes -> bool, w: World, e: Event)
    requires Enabled(json, w, e) && Behind(Next(json, w, e)) && Few(w) && Inv(json, w)
    ensures e.Handle? || (Behind(w) && Next(json, w, e).past == w.past)
  {
    if e.ClientResult? {
      Generations.ResultInv(json, w, e.now);
      KnowsCur(w, DoResult(json, w, e.now));
    }
    hide Relay.Next, Relay.Enabled, Few, Inv, DoProcess, DoHandle, DoResult;
  }

  // ---------------------------------------------------------------------------
  // What follows for every run
  // ---------------------------------------------------------------------------

  /**
   * If the client is behind and the response that would bring it up to date is nowhere, then
   * since the device consumed the client's preimage one of the named losses has taken it away,
   * or the device's answer never set out.
   */
  lemma {:induction false} LostOnlyByLoss(json: Bytes -> bool, ws: seq<World>, es: seq<Event>, j: nat) returns (i: nat)
    requires Run(json, ws, es) && j <= |es| && Few(ws[j])
    requires Behind(ws[j]) && !Located(ws[j])
    ensures i < j && ws[i + 1].past == ws[j].past && Loss(json, ws[i], es[i])
    ensures es[i].Handle? || (Behind(ws[i]) && Located(ws[i]))
    ensures Behind(ws[i + 1]) && !Located(ws[i + 1])
    decreases j
  {
    hide Next, Few, Init, Enabled, Inv, Loss, Located, Behind;
    if j == 0 {
      NotBehindAtFirst(ws[0]);
      assert false;
    } else {
      var w, e := ws[j - 1], es[j - 1];
      Generations.StepBefore(json, ws, es, j);
      BehindBefore(json, w, e);
      if e.Handle? {
        Generations.HandleNext(json, w, e);
        AnsweredOrLost(json, w, e);
        i := j - 1;
      } else if Located(w) {
        KeptOrLost(json, w, e);
        i := j - 1;
      } else {
        i := LostOnlyByLoss(json, ws, es, j - 1);
      }
    }
  }

  lemma AnsweredOrLost(json: Bytes -> bool, w: World, e: Event)
    requires e.Handle? && Enabled(json, w, e) && !Located(DoHandle(w, e)) && Inv(json, w)
    ensures Loss(json, w, e)
  {
    hide Loss, Located, Inv, Enabled, DoHandle;
    if !Loss(json, w, e) {
      SetsOut(json, w, e);
    }
  }

  lemma KeptOrLost(json: Bytes -> bool, w: World, e: Event)
    requires Enabled(json, w, e) && Behind(w) && Located(w) && Behind(Next(json, w, e)) && !Located(Next(json, w, e))
    requires Few(w) && Inv(json, w)
    ensures Loss(json, w, e)
  {
    hide Loss, Located, Inv, Enabled, Next, Few, Behind;
    if !Loss(json, w, e) {
      GoesOn(json, w, e);
    }
  }

  lemma NotBehindAtFirst(w: World)
    requires Init(w)
    ensures !Behind(w)
  {}

  /** Wherever the response is, it is one that carries the device's live preimage. */
  ghost predicate AllCarry(json: Bytes -> bool, w: World)
    requires w.past != []
  {
    && (forall s :: s in w.links && HasAck(w.links[s].up) ==>
          var f := w.links[s].up[|w.links[s].up| - 1].frame; f.AckFrame? && Carries(json, f.payload, w.cur))
    && (forall a :: Answering(w, a) ==> Carries(json, w.relay.acks[a].response, w.cur))
    && (InCache(w) ==> Carries(json, w.relay.tables.cache[w.past[|w.past| - 1]].response, w.cur))
    && (w.waiting.Some? && InResult(w.relay, w.waiting.value) ==>
          Carries(json, w.relay.calls[w.waiting.value].pc.payload, w.cur))
    && (w.waiting.Some? && w.waiting.value in w.relay.calls && w.relay.calls[w.waiting.value].slot.Full? ==>
          Carries(json, w.relay.calls[w.waiting.value].slot.response, w.cur))
  }

  lemma CarriesCur(json: Bytes -> bool, ws: seq<World>, es: seq<Event>, i: nat)
    requires Run(json, ws, es) && i <= |es| && Few(ws[i]) && Behind(ws[i])
    ensures AllCarry(json, ws[i])
  {
    hide Init, Next, Enabled, AllCarry, Inv, Few;
    Generations.RunKeepsInv(json, ws, es, i);
    AllCarryNow(json, ws[i]);
  }

  lemma AllCarryNow(json: Bytes -> bool, w: World)
    requires Behind(w) && Few(w) && Inv(json, w)
    ensures AllCarry(json, w)
  {
    hide Few, Carries, Relayed, Issued, View, Sends, Ups, Inbound, Answerable, Named, HasAck;
    FramesCarry(json, w);
    assert forall a :: Answering(w, a) ==> GoodArrival(json, w, a);
    hide Arrived, GoodArrival;
    if InCache(w) {
      CachedCarries(json, w);
    }
    if w.waiting.Some? && InResult(w.relay, w.waiting.value) {
      var a := Generations.ResultLearned(json, w, w.relay.calls[w.waiting.value].pc.payload);
    }
    if w.waiting.Some? && w.waiting.value in w.relay.calls && w.relay.calls[w.waiting.value].slot.Full? {
      SlotCarries(json, w);
    }
  }

  lemma SlotCarries(json: Bytes -> bool, w: World)
    requires w.waiting.Some? && w.waiting.value in w.relay.calls && w.relay.calls[w.waiting.value].slot.Full?
    requires Behind(w) && Few(w) && Inv(json, w)
    ensures Carries(json, w.relay.calls[w.waiting.value].slot.response, w.cur)
  {
    var k := w.waiting.value;
    hide Rendezvous.Inv, Provenance.CacheBelongs, Provenance.ResultsBelong, Issued, View, Ups, Arrived, Inbound, Carries,
         Provenance.Answered;
    assert Provenance.Answered(w.relay, k, w.relay.calls[k].slot.response);
    assert Provenance.Belongs(w.relay, w.past[|w.past| - 1], w.relay.calls[k].slot.response);
    hide Provenance.Belongs, Provenance.SlotsBelong, Provenance.Inv;
    BelongsLast(json, w, w.relay.calls[k].slot.response);
  }

  lemma FramesCarry(json: Bytes -> bool, w: World)
    requires Ups(json, w)
    ensures forall s :: s in w.links && HasAck(w.links[s].up) ==>
              var f := w.links[s].up[|w.links[s].up| - 1].frame; f.AckFrame? && Carries(json, f.payload, w.cur)
  {
    forall s | s in w.links && HasAck(w.links[s].up)
      ensures var f := w.links[s].up[|w.links[s].up| - 1].frame; f.AckFrame? && Carries(json, f.payload, w.cur)
    {
      assert GoodUp(json, w, w.links[s].up);
    }
  }

  lemma CachedCarries(json: Bytes -> bool, w: World)
    requires InCache(w) && Few(w) && Inv(json, w)
    ensures Carries(json, w.relay.tables.cache[w.past[|w.past| - 1]].response, w.cur)
  {
    hide Rendezvous.Inv, Provenance.Inv, Provenance.Belongs, Issued, View, Sends, Ups, Arrived, Inbound, Carries;
    CachedBelongs(w.relay, w.past[|w.past| - 1]);
    BelongsLast(json, w, w.relay.tables.cache[w.past[|w.past| - 1]].response);
  }

  lemma CachedBelongs(m: Relay.State, p: Preimage)
    requires Provenance.Inv(m) && p in m.tables.cache
    ensures Provenance.Belongs(m, p, m.tables.cache[p].response)
  {}

  lemma BelongsLast(json: Bytes -> bool, w: World, r: Bytes)
    requires Relayed(w) && Few(w) && Arrived(json, w) && Issued(w)
    requires w.past != [] && Provenance.Belongs(w.relay, w.past[|w.past| - 1], r)
    ensures Carries(json, r, w.cur)
  {
    hide Relayed, Few, Arrived, Carries, Provenance.Belongs, Issued;
    var a := BelongsCarries(json, w, w.past[|w.past| - 1], r);
    LastOnce(w, w.answers[a]);
  }

  lemma LastOnce(w: World, j: nat)
    requires Issued(w) && j < |w.past| && w.past[j] == w.past[|w.past| - 1]
    ensures j == |w.past| - 1
  {}

  // ---------------------------------------------------------------------------
  // Catching up
  // ---------------------------------------------------------------------------

  /** White space in the sense of section 2 of RFC 8259. */
  predicate AllSpace(bytes: Bytes) {
    forall b :: b in bytes ==> b == 0x20 || b == 0x09 || b == 0x0A || b == 0x0D
  }

  /** After a text that parses, only white space may follow. */
  ghost predicate Parser(json: Bytes -> bool) {
    forall doc: Bytes, rest: Bytes :: json(doc) ==> (json(doc + rest) <==> AllSpace(rest))
  }

  lemma Three(json: Bytes -> bool, w: World, e1: Event, e2: Event, e3: Event)
    requires Enabled(json, w, e1) && Enabled(json, Next(json, w, e1), e2)
    requires Enabled(json, Next(json, Next(json, w, e1), e2), e3)
    ensures CanDo(json, w, [e1, e2, e3])
    ensures After(json, w, [e1, e2, e3]) == Next(json, Next(json, Next(json, w, e1), e2), e3)
  {
    hide Enabled, Next;
    CanDoMore(json, w, [], e1);
    CanDoMore(json, w, [e1], e2);
    CanDoMore(json, w, [e1, e2], e3);
    assert [] + [e1] == [e1] && [e1] + [e2] == [e1, e2] && [e1, e2] + [e3] == [e1, e2, e3];
  }

  /** One more send: the SEND reaches the relay, and finds the cached response. */
  function Ask(k: nat, payload: Bytes): seq<Event> {
    [ClientSend(k, payload), ReceiveSend(k), RelayStep(Relay.Check(k))]
  }

  /** The relay's part: the send is on its way to the client with the cached response. */
  lemma CachedHit(json: Bytes -> bool, w: World, k: nat, payload: Bytes)
    requires w.waiting.None? && w.Their().Some? && k !in w.outbox && k !in w.relay.calls && !IsHandshake(payload)
    requires var p := w.Their().value; p in w.relay.tables.cache && w.relay.tables.cache[p].expiresAt > w.relay.now
    ensures CanDo(json, w, Ask(k, payload))
    ensures var w' := After(json, w, Ask(k, payload));
            && w' == w.(relay := w'.relay, outbox := w'.outbox, waiting := Some(k)) && k in w'.relay.calls
            && w'.relay.calls[k].pc == Relay.Returned(Wire.SEND_OK, w.relay.tables.cache[w.Their().value].response)
  {
    var e1, e2, e3 := ClientSend(k, payload), ReceiveSend(k), RelayStep(Relay.Check(k));
    var w1 := Next(json, w, e1);
    var w2 := Next(json, w1, e2);
    var w3 := Next(json, w2, e3);
    Three(json, w, e1, e2, e3);
  }

  /** The client's part: it takes the preimage off the end of the response if that is not white space. */
  lemma LearnedExactly(json: Bytes -> bool, r: Bytes, p: Preimage)
    requires Parser(json) && Carries(json, r, p)
    ensures Learned(json, r) == if AllSpace(p.bytes) then None else Some(p)
  {
    var doc := r[..|r| - 32];
    assert r == doc + p.bytes;
    assert json(doc + p.bytes) <==> AllSpace(p.bytes);
  }

  /** A retry that the relay answers from its cache, and its result coming back. */
  ghost predicate RetryOutcome(json: Bytes -> bool, w: World, k: nat, payload: Bytes, now: nat) {
    && CanDo(json, w, Ask(k, payload) + [ClientResult(now)])
    && var w' := After(json, w, Ask(k, payload) + [ClientResult(now)]);
       && w'.cur == w.cur && w'.past == w.past
       && (w'.Their() == Some(w'.cur) <==> !AllSpace(w'.cur.bytes))
  }

  lemma RetryFrom(json: Bytes -> bool, w: World, k: nat, payload: Bytes, now: nat)
    requires Parser(json) && Behind(w) && InCache(w) && !Expired(w) && w.waiting.None?
    requires k !in w.outbox && k !in w.relay.calls && !IsHandshake(payload)
    requires Few(w) && Inv(json, w)
    ensures RetryOutcome(json, w, k, payload, now)
  {
    hide Next, Enabled, CanDo, After, Parser, Carries, Learned, AllSpace, Relayed, Issued, View, Sends, Ups, Arrived,
         Inbound, Few, Ask;
    CachedCarries(json, w);
    CachedHit(json, w, k, payload);
    LearnedExactly(json, w.relay.tables.cache[w.Their().value].response, w.cur);
    CurNew(json, w);
    ResultExactly(json, After(json, w, Ask(k, payload)), w.cur, now);
    CanDoMore(json, w, Ask(k, payload), ClientResult(now));
  }

  /**
   * While the relay still caches the response, one send brings the client up to date, exactly
   * when the device's live preimage is not all white space.
   */
  lemma RetryAtOnce(json: Bytes -> bool, ws: seq<World>, es: seq<Event>, i: nat, k: nat, payload: Bytes, now: nat)
    requires Run(json, ws, es) && i <= |es| && Few(ws[i]) && Parser(json)
    requires Behind(ws[i]) && InCache(ws[i]) && !Expired(ws[i]) && ws[i].waiting.None?
    requires k !in ws[i].outbox && k !in ws[i].relay.calls && !IsHandshake(payload)
    ensures RetryOutcome(json, ws[i], k, payload, now)
  {
    hide Init, Next, Enabled, Inv, Few, RetryOutcome, Parser, Behind, InCache, Expired;
    Generations.RunKeepsInv(json, ws, es, i);
    RetryFrom(json, ws[i], k, payload, now);
  }

  lemma CurNew(json: Bytes -> bool, w: World)
    requires Inv(json, w) && Behind(w)
    ensures w.Their() != Some(w.cur) && w.nodeId in w.client.peers
  {}

  lemma ResultExactly(json: Bytes -> bool, w: World, p: Preimage, now: nat)
    requires w.waiting.Some? && w.waiting.value in w.relay.calls && w.relay.calls[w.waiting.value].pc.Returned?
    requires w.relay.calls[w.waiting.value].pc.status == Wire.SEND_OK && w.nodeId in w.client.peers
    requires w.Their() != Some(p)
    ensures Enabled(json, w, ClientResult(now))
    ensures var w', learned := Next(json, w, ClientResult(now)), Learned(json, w.relay.calls[w.waiting.value].pc.payload);
            && w'.cur == w.cur && w'.past == w.past
            && (learned == Some(p) ==> w'.Their() == Some(p)) && (learned == None ==> w'.Their() != Some(p))
  {}
}
