/**
 * Steps on the connections between the relay and the device keep the two ends in step.
 */
module Links {
  import opened Types
  import opened Router
  import opened Device
  import opened Nodes
  import opened System
  import opened Replies
  import opened Sync
  import Relay
  import Rendezvous
  import Provenance
  import Ownership

  /** While the client is behind, no message is on its way to the device. */
  lemma Idle(w: World)
    requires Rendezvous.Inv(w.relay) && Sends(w) && Inbound(w) && w.conn.Some? && w.Their() != Some(w.cur)
    ensures !Busy(w.relay, w.conn.value, w.links[w.conn.value].down)
  {
    var s := w.conn.value;
    var down := w.links[s].down;
    forall d | d in w.relay.Queue(s) || d in down ensures false {
      AnswerableNamed(w.relay, d.msgId, w.cur);
    }
    FirstIn(w.relay.Queue(s));
    FirstIn(down);
  }

  lemma FirstIn<T>(s: seq<T>)
    ensures s != [] ==> s[0] in s
  {}

  /** A frame of connection `s` is behind us: what is known about the others stays. */
  ghost predicate Passed(w: World, w': World, s: nat) {
    && Apart(w, w') && w'.conn == w.conn && w'.outbox == w.outbox && w'.waiting == w.waiting
    && s in w.links && w.links[s].up != []
    && w'.links == w.links[s := w.links[s].(up := w.links[s].up[1..])]
  }

  lemma PassedUp(json: Bytes -> bool, w: World, w': World, s: nat)
    requires Ups(json, w) && Passed(w, w', s)
    ensures forall t :: t in w.links ==> Shortened(w.links[t].up, w'.links[t].up)
  {
    assert GoodUp(json, w, w.links[s].up);
  }

  lemma GreetingKept(m: Relay.State, m': Relay.State, id: Id, s: nat, link: Link, link': Link, past: seq<Preimage>,
                     cur: Preimage)
    requires Greeting(m, id, s, link, past, cur)
    requires m'.calls == m.calls && m'.Queue(s) == m.Queue(s) && (Leads(m', id, s) ==> Leads(m, id, s))
    requires link' == link || link'.up == [] || !link'.up[0].Hail?
    ensures Greeting(m', id, s, link', past, cur)
  {}

  lemma NotYetKnown(json: Bytes -> bool, w: World, s: nat)
    requires Ups(json, w) && s in w.links && |w.links[s].up| == 2
    ensures w.Their() != Some(w.cur)
  {
    assert GoodUp(json, w, w.links[s].up);
  }

  lemma UpdateArrives(m: Relay.State, m': Relay.State, id: Id, s: nat, link: Link, link': Link, past: seq<Preimage>,
                      cur: Preimage)
    requires m'.tables == m.tables.AddCommits(id, [Sha256(cur)]) && m'.calls == m.calls && m'.queues == m.queues
    requires OneAtMost(m, s, link.down, cur) && Spent(m, id, s, link.down, past, cur)
    requires Greeting(m, id, s, link, past, cur)
    requires !Busy(m, s, link.down) && cur !in past && link'.down == link.down
    requires link' == link || link'.up == [] || !link'.up[0].Hail?
    ensures OneAtMost(m', s, link'.down, cur) && Spent(m', id, s, link'.down, past, cur)
    ensures Greeting(m', id, s, link', past, cur)
  {
    hide OneAtMost, Spent, Busy, Greeting, Leads, Tables.AddCommits;
    AddInbound(m, m', id, s, link.down, past, cur);
    GreetingKept(m, m', id, s, link, link', past, cur);
  }

  lemma UpdateInbound(w: World, w': World, s: nat)
    requires Passed(w, w', s) && |w.links[s].up| == 2 && !w.links[s].up[1].Hail?
    requires w'.relay.tables == w.relay.tables.AddCommits(w.nodeId, [Sha256(w.cur)])
    requires w'.relay.calls == w.relay.calls && w'.relay.queues == w.relay.queues
    requires w.conn.Some? ==> w.conn.value in w.links && !Busy(w.relay, w.conn.value, w.links[w.conn.value].down)
    requires w.cur !in w.past && Inbound(w)
    ensures Inbound(w')
  {
    hide OneAtMost, Spent, Busy, Greeting, Tables.AddCommits;
    if w.conn.Some? {
      var c := w.conn.value;
      UpdateArrives(w.relay, w'.relay, w.nodeId, c, w.links[c], w'.links[c], w.past, w.cur);
    }
  }

  lemma LaterFrame(json: Bytes -> bool, w: World, s: nat)
    requires Ups(json, w) && s in w.links && |w.links[s].up| == 2
    ensures !w.links[s].up[1].Hail?
  {
    assert GoodUp(json, w, w.links[s].up);
  }

  lemma HailInbound(json: Bytes -> bool, w: World, w': World, s: nat)
    requires Passed(w, w', s) && |w.links[s].up| == 1 && w.links[s].up[0].Hail?
    requires w'.relay.tables == w.relay.tables.Register(w.nodeId, w.links[s].up[0].commits, [], s, w.relay.now)
    requires w'.relay.calls == w.relay.calls && w'.relay.queues == w.relay.queues
    requires Inv(json, w)
    ensures Inbound(w')
  {
    if w.conn.Some? {
      var c := w.conn.value;
      hide Relayed, Ups, Arrived, View, Sends, OneAtMost, Spent, Ownership.Inv;
      RegisterInbound(w.relay, w'.relay, w.nodeId, w.links[s].up[0].commits, s, c, w.links[c].down, w.past, w.cur);
    }
  }

  /** The frame just handled was not an acknowledgement. */
  lemma PassedInv(json: Bytes -> bool, w: World, w': World, s: nat, e: Relay.Event)
    requires Inv(json, w) && Few(w) && Passed(w, w', s) && w'.answers == w.answers
    requires (e.Register? && e.recent == []) || e.AddCommits?
    requires Relay.Enabled(w.relay, e) && w'.relay == Relay.Next(w.relay, e) && Few(w')
    ensures Relayed(w') && Issued(w') && View(w') && Sends(w') && Ups(json, w') && Arrived(json, w')
  {
    hide Relay.Next, Relay.Enabled, Rendezvous.Inv, Provenance.Inv, Few, GoodUp, GoodArrival, Inbound;
    RelayedStep(w, w', e);
    PassedUp(json, w, w', s);
    hide Sends, Ups, Arrived, Issued, View;
    UpsKept(json, w, w', e);
    ArrivedKept(json, w, w', e);
    SendsKept(w, w', e);
    ApartKeeps(w, w');
  }

  lemma AckInbound(json: Bytes -> bool, w: World, w': World, s: nat)
    requires Passed(w, w', s) && |w.links[s].up| == 1 && w'.relay == w.relay.(acks := w'.relay.acks)
    requires Inv(json, w)
    ensures Inbound(w')
  {
    if w.conn.Some? {
      var c := w.conn.value;
      hide Relayed, Ups, Arrived, View, Sends, Issued, OneAtMost, Busy, Greeting;
      SameTraffic(w.relay, w'.relay, c, w.links[c].down, w.cur);
      GreetingKept(w.relay, w'.relay, w.nodeId, c, w.links[c], w'.links[c], w.past, w.cur);
    }
  }

  /** The acknowledgement has arrived at a handle_ack run of its own, the only one for the preimage it answers. */
  lemma AckArrived(json: Bytes -> bool, w: World, w': World, f: UpFrame, s: nat, a: nat)
    requires GoodAck(json, w, f) && Arrived(json, w) && Rendezvous.Inv(w.relay)
    requires a !in w.relay.acks && Apart(w, w') && w'.answers == w.answers[a := |w.past| - 1]
    requires w'.relay == w.relay.(acks := w.relay.acks[a := Relay.Ack(s, f.frame.msgId, f.frame.payload, Relay.Taking)])
    ensures Arrived(json, w')
  {
    hide GoodArrival, Answerable, Named, Carries, Rendezvous.Inv;
    NewArrival(json, w, w', f, a);
    forall b | b in w.relay.acks ensures GoodArrival(json, w', b) {
      ArrivalMoved(json, w, w', b);
    }
  }

  lemma ArrivalMoved(json: Bytes -> bool, w: World, w': World, b: nat)
    requires b in w.relay.acks && GoodArrival(json, w, b) && Apart(w, w')
    requires b in w'.relay.acks && w'.relay.acks[b] == w.relay.acks[b] && b in w'.answers
    requires w'.answers[b] == w.answers[b]
    requires w'.relay.calls == w.relay.calls && w'.relay.tables.pending == w.relay.tables.pending
    ensures GoodArrival(json, w', b)
  {
    SameAnswers(w.relay, w'.relay);
    hide Answerable, Named, Carries;
    ArrivalFrame(json, w, w', b);
  }

  lemma NewArrival(json: Bytes -> bool, w: World, w': World, f: UpFrame, a: nat)
    requires GoodAck(json, w, f) && Rendezvous.Inv(w.relay)
    requires a in w'.relay.acks && Apart(w, w') && a in w'.answers && w'.answers[a] == |w.past| - 1
    requires w'.relay.acks[a] == Relay.Ack(w'.relay.acks[a].session, f.frame.msgId, f.frame.payload, Relay.Taking)
    requires w'.relay.calls == w.relay.calls && w'.relay.tables.pending == w.relay.tables.pending
    ensures GoodArrival(json, w', a)
  {
    AnswerableNamed(w.relay, f.frame.msgId, w.past[|w.past| - 1]);
    SameAnswers(w.relay, w'.relay);
    hide Answerable, Named, Carries;
  }

  lemma AckLeft(json: Bytes -> bool, w: World, w': World, s: nat)
    requires Passed(w, w', s) && |w.links[s].up| == 1 && !w.links[s].up[0].Hail?
    requires Ups(json, w)
    ensures Ups(json, w')
  {
    forall t | t in w'.links ensures GoodUp(json, w', w'.links[t].up) && !HasAck(w'.links[t].up) {
      assert GoodUp(json, w, w.links[t].up);
      hide GoodAck;
    }
  }

  lemma SameAnswers(m: Relay.State, m': Relay.State)
    requires m'.calls == m.calls && m'.tables.pending == m.tables.pending
    ensures forall msgId, p :: Named(m, msgId, p) ==> Named(m', msgId, p)
    ensures forall msgId, p :: Answerable(m, msgId, p) ==> Answerable(m', msgId, p)
  {
    forall msgId, p | Named(m, msgId, p) ensures Named(m', msgId, p) {
      var c :| c in m.calls && Rendezvous.HasId(m.calls[c], msgId) && m.calls[c].preimage == p;
      assert Rendezvous.HasId(m'.calls[c], msgId);
    }
  }

  lemma ProcessHail(json: Bytes -> bool, w: World, w': World, s: nat)
    requires Passed(w, w', s) && w.links[s].up[0].Hail? && w'.answers == w.answers
    requires w'.relay == Relay.Next(w.relay, Relay.Register(w.nodeId, w.links[s].up[0].commits, [], s))
    requires Few(w) && Few(w') && Inv(json, w)
    ensures Inv(json, w')
  {
    assert GoodUp(json, w, w.links[s].up);
    hide Rendezvous.Inv, Provenance.Inv, Issued, View, Sends, Ups, Arrived, Inbound, Few, GoodAck;
    HailInbound(json, w, w', s);
    hide Passed;
    PassedInv(json, w, w', s, Relay.Register(w.nodeId, w.links[s].up[0].commits, [], s));
  }

  lemma ProcessUpdate(json: Bytes -> bool, w: World, w': World, s: nat)
    requires Passed(w, w', s) && |w.links[s].up| == 2 && w'.answers == w.answers
    requires w.links[s].up[0] == Out(UpdateFrame([Sha256(w.cur)]))
    requires w'.relay == Relay.Next(w.relay, Relay.AddCommits(w.nodeId, [Sha256(w.cur)]))
    requires Few(w) && Few(w') && Inv(json, w)
    ensures Inv(json, w')
  {
    hide Rendezvous.Inv, Provenance.Inv, View, Sends, Ups, Arrived, Few, Ownership.Inv, OneAtMost, Spent, Greeting,
         Busy;
    NotYetKnown(json, w, s);
    LaterFrame(json, w, s);
    if w.conn.Some? {
      Idle(w);
    }
    UpdateInbound(w, w', s);
    hide Passed, Inbound, Issued;
    PassedInv(json, w, w', s, Relay.AddCommits(w.nodeId, [Sha256(w.cur)]));
  }

  lemma ProcessAck(json: Bytes -> bool, w: World, w': World, s: nat, a: nat)
    requires Passed(w, w', s) && |w.links[s].up| == 1 && GoodAck(json, w, w.links[s].up[0]) && a !in w.relay.acks
    requires var f := w.links[s].up[0].frame;
             w'.relay == Relay.Next(w.relay, Relay.AckArrive(a, s, f.msgId, f.payload))
    requires w'.answers == w.answers[a := Latest(w)]
    requires Inv(json, w)
    ensures Inv(json, w')
  {
    hide Answerable, Carries, Rendezvous.Inv, Provenance.Inv, Issued, View, Sends, Ups, Arrived, Inbound;
    var f := w.links[s].up[0];
    assert w'.answers == w.answers[a := |w.past| - 1] && f.Out? && f.frame.AckFrame?;
    hide GoodAck, Rendezvous.Inv, Provenance.Inv, Issued, View, Sends, Ups, Arrived, Inbound;
    RelayedStep(w, w', Relay.AckArrive(a, s, f.frame.msgId, f.frame.payload));
    AckInbound(json, w, w', s);
    AckLeft(json, w, w', s);
    AckRest(w, w', s);
    AckArrived(json, w, w', f, s, a);
  }

  lemma UpCases(json: Bytes -> bool, w: World, s: nat)
    requires Ups(json, w) && s in w.links && w.links[s].up != []
    ensures var up := w.links[s].up;
            match up[0]
            case Hail(_) => true
            case Out(UpdateFrame(_)) => |up| == 2 && up[0] == Out(UpdateFrame([Sha256(w.cur)]))
            case Out(AckFrame(_, _)) => |up| == 1 && GoodAck(json, w, up[0]) && w.past != []
  {
    assert GoodUp(json, w, w.links[s].up);
  }

  lemma ProcessEffect(w: World, s: nat, a: nat)
    requires w.Open(s) && w.links[s].up != [] && a !in w.relay.acks
    ensures var w' := DoProcess(w, s, a);
            && Passed(w, w', s)
            && match w.links[s].up[0]
               case Hail(commits) =>
                 && w'.relay == Relay.Next(w.relay, Relay.Register(w.nodeId, commits, [], s))
                 && w'.answers == w.answers
               case Out(UpdateFrame(commits)) =>
                 && w'.relay == Relay.Next(w.relay, Relay.AddCommits(w.nodeId, commits))
                 && w'.answers == w.answers
               case Out(AckFrame(msgId, response)) =>
                 && w'.relay == Relay.Next(w.relay, Relay.AckArrive(a, s, msgId, response))
                 && w'.answers == w.answers[a := Latest(w)]
  {
    hide Relay.Next;
  }

  /** A session handles a frame. */
  lemma ProcessInv(json: Bytes -> bool, w: World, s: nat, a: nat)
    requires Enabled(json, w, Process(s, a)) && Few(w) && Few(DoProcess(w, s, a))
    requires Inv(json, w)
    ensures Inv(json, DoProcess(w, s, a))
  {
    var w' := DoProcess(w, s, a);
    ProcessEffect(w, s, a);
    UpCases(json, w, s);
    hide DoProcess, Inv, Few, Passed, GoodAck, Relay.Next;
    match w.links[s].up[0]
    case Hail(_) => ProcessHail(json, w, w', s);
    case Out(UpdateFrame(_)) => ProcessUpdate(json, w, w', s);
    case Out(AckFrame(_, _)) => ProcessAck(json, w, w', s, a);
  }

  lemma AckRest(w: World, w': World, s: nat)
    requires Passed(w, w', s) && w'.relay == w.relay.(acks := w'.relay.acks)
    requires Issued(w) && View(w) && Sends(w)
    ensures Issued(w') && View(w') && Sends(w')
  {
    ApartKeeps(w, w');
  }

  lemma MovedInbound(w: World, w': World, s: nat)
    requires s in w.links && w'.conn == w.conn && Apart(w, w') && s in w'.links && w'.links == w.links[s := w'.links[s]]
    requires w'.relay.calls == w.relay.calls && w'.relay.tables == w.relay.tables
    requires forall t :: t != s ==> w'.relay.Queue(t) == w.relay.Queue(t)
    requires w'.links[s].down + w'.relay.Queue(s) == w.links[s].down + w.relay.Queue(s)
             || (w'.relay.Queue(s) == [] && w'.links[s].down == w.links[s].down)
    requires w'.links[s].up == w.links[s].up || w'.links[s].up == []
    requires Inbound(w)
    ensures Inbound(w')
  {
    if w.conn.Some? {
      var c := w.conn.value;
      TrafficMoved(w.relay, w'.relay, c, w.links[c].down, w'.links[c].down, w.cur);
      hide OneAtMost, Busy;
    }
  }

  /** Between a channel and its end at the device messages only move, or are lost. */
  lemma MovedInv(json: Bytes -> bool, w: World, w': World, s: nat, e: Relay.Event)
    requires s in w.links && Relay.Enabled(w.relay, e) && (e == Relay.Dequeue(s) || e == Relay.Close(s))
    requires w' == w.(relay := Relay.Next(w.relay, e), links := w'.links)
    requires s in w'.links && w'.links == w.links[s := w'.links[s]] && (w'.links[s].up == w.links[s].up || w'.links[s].up == [])
    requires w'.links[s].down + w'.relay.Queue(s) == w.links[s].down + w.relay.Queue(s)
             || (w'.relay.Queue(s) == [] && w'.links[s].down == w.links[s].down)
    requires Few(w) && Few(w') && Inv(json, w)
    ensures Inv(json, w')
  {
    hide Rendezvous.Inv, Provenance.Inv, Few, Relay.Next, Relay.Enabled, Sends, Ups, Arrived, Inbound, Issued, View;
    RelayedStep(w, w', e);
    ChannelMoved(w.relay, e, s);
    assert Apart(w, w');
    MovedInbound(w, w', s);
    UpsKept(json, w, w', e);
    ArrivedKept(json, w, w', e);
    SendsKept(w, w', e);
    ApartKeeps(w, w');
  }

  lemma ChannelMoved(m: Relay.State, e: Relay.Event, s: nat)
    requires Relay.Enabled(m, e) && (e == Relay.Dequeue(s) || e == Relay.Close(s))
    ensures var m' := Relay.Next(m, e);
            && m'.calls == m.calls && m'.tables == m.tables
            && forall t :: t != s ==> m'.Queue(t) == m.Queue(t)
  {}
}
