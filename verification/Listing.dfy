/**
 * A preimage learned from a response is already listed at the relay, because the device's
 * UPDATE_COMMITS goes ahead of its acknowledgement.
 */
module Listing {
  import opened Types
  import opened Router
  import opened Device
  import opened Nodes
  import opened System
  import opened Sync
  import Capacity
  import Generations
  import Links
  import Ownership
  import Relay
  import Wire

  /** The device has listed this preimage's commit at the relay. */
  predicate Listed(m: Relay.State, id: Id, p: Preimage) {
    m.listed[(id, Sha256(p))] > 0
  }

  /** Only what the device drew is ever listed, or about to be. */
  ghost predicate OwnListings(w: World) {
    && (forall p :: Listed(w.relay, w.nodeId, p) ==> p in w.node.drawn)
    && (forall s, c :: s in w.links && w.links[s].up != [] && w.links[s].up[0].Hail? && c in w.links[s].up[0].commits ==>
          c.preimage in w.node.drawn)
  }

  /** An answer that no UPDATE_COMMITS precedes, or that has arrived, was preceded by it. */
  ghost predicate AnswersListed(w: World) {
    && (forall s :: s in w.links && |w.links[s].up| == 1 && w.links[s].up[0].Out? ==> Listed(w.relay, w.nodeId, w.cur))
    && (forall a :: a in w.answers && w.answers[a] < |w.past| ==> Listed(w.relay, w.nodeId, w.After(w.answers[a])))
  }

  predicate KnownListed(w: World) {
    w.Their() == Some(w.cur) && w.past != [] ==> Listed(w.relay, w.nodeId, w.cur)
  }

  /** The preimage from the pairing is listed by the first I_AM. */
  ghost predicate FirstListed(w: World) {
    w.past == [] ==>
      && (w.nodeId in w.relay.tables.devices ==> Listed(w.relay, w.nodeId, w.cur))
      && forall s :: s in w.links && w.links[s].up != [] && w.links[s].up[0].Hail? ==> Sha256(w.cur) in w.links[s].up[0].commits
  }

  ghost predicate Good(w: World) {
    OwnListings(w) && AnswersListed(w) && KnownListed(w) && FirstListed(w)
  }

  // ---------------------------------------------------------------------------
  // Steps
  // ---------------------------------------------------------------------------

  lemma RelayGood(w: World, w': World, e: Relay.Event)
    requires Internal(e) && Relay.Enabled(w.relay, e) && w' == w.(relay := Relay.Next(w.relay, e))
    requires Good(w)
    ensures Good(w')
  {
    Relay.ChannelsFrame(w.relay, e);
    assert w'.relay.listed == w.relay.listed;
    NoNewEntry(w.relay, e, w.nodeId);
    hide Relay.Next, Relay.Enabled;
    assert forall p :: Listed(w'.relay, w.nodeId, p) <==> Listed(w.relay, w.nodeId, p);
  }

  lemma NoNewEntry(m: Relay.State, e: Relay.Event, id: Id)
    requires Relay.Enabled(m, e) && Internal(e)
    ensures id in Relay.Next(m, e).tables.devices ==> id in m.tables.devices
  {
    if !e.Admit? {
      Relay.DevicesFrame(m, e);
      hide Relay.Next;
    }
  }

  lemma ListedMore(m: Relay.State, e: Relay.Event, id: Id, p: Preimage)
    requires Relay.Enabled(m, e)
    ensures Listed(Relay.Next(m, e), id, p) <==> Listed(m, id, p) || Capacity.Lists(e, id, Sha256(p))
  {
    Capacity.ListedStep(m, e, id, Sha256(p));
  }

  lemma HailGood(w: World, w': World, s: nat)
    requires Links.Passed(w, w', s) && |w.links[s].up| == 1 && w.links[s].up[0].Hail?
    requires w'.relay == Relay.Next(w.relay, Relay.Register(w.nodeId, w.links[s].up[0].commits, [], s))
    requires w'.answers == w.answers
    requires Good(w)
    ensures Good(w')
  {
    var commits := w.links[s].up[0].commits;
    forall p ensures Listed(w'.relay, w.nodeId, p) <==> Listed(w.relay, w.nodeId, p) || Sha256(p) in commits {
      ListedMore(w.relay, Relay.Register(w.nodeId, commits, [], s), w.nodeId, p);
    }
    hide Relay.Next, Listed;
  }

  lemma UpdateGood(w: World, w': World, s: nat)
    requires Links.Passed(w, w', s) && |w.links[s].up| == 2 && w.links[s].up[0] == Out(UpdateFrame([Sha256(w.cur)]))
    requires !w.links[s].up[1].Hail?
    requires w'.relay == Relay.Next(w.relay, Relay.AddCommits(w.nodeId, [Sha256(w.cur)]))
    requires w'.answers == w.answers && w.cur in w.node.drawn
    requires Good(w)
    ensures Good(w')
  {
    var commits := [Sha256(w.cur)];
    assert w'.relay.tables.devices.Keys == w.relay.tables.devices.Keys;
    forall p ensures Listed(w'.relay, w.nodeId, p) <==> Listed(w.relay, w.nodeId, p) || p == w.cur {
      ListedMore(w.relay, Relay.AddCommits(w.nodeId, commits), w.nodeId, p);
    }
    hide Relay.Next, Listed;
  }

  lemma AckGood(w: World, w': World, s: nat, a: nat)
    requires Links.Passed(w, w', s) && |w.links[s].up| == 1 && w.links[s].up[0].Out?
    requires w'.relay == w.relay.(acks := w'.relay.acks) && w'.answers.Keys == w.answers.Keys + {a}
    requires w.past != [] && w'.answers[a] == |w.past| - 1
    requires (forall b :: b in w.answers && b != a ==> w'.answers[b] == w.answers[b])
    requires Good(w)
    ensures Good(w')
  {
    assert forall p :: Listed(w'.relay, w.nodeId, p) <==> Listed(w.relay, w.nodeId, p);
    hide Listed;
  }

  lemma Drawn(w: World)
    requires Issued(w)
    ensures w.cur in w.node.drawn && w.cur in w.node.records.Live() && w.node.records.Live() <= w.node.drawn
  {
    Ownership.IssuedIsLive(w.node.records, w.clientId, w.cur);
  }

  lemma ProcessGood(json: Bytes -> bool, w: World, s: nat, a: nat)
    requires Enabled(json, w, Process(s, a)) && Good(w) && Inv(json, w)
    ensures Good(DoProcess(w, s, a))
  {
    hide DoProcess, Relayed, Issued, View, Sends, Ups, Arrived, Inbound, GoodAck, Good, Links.Passed, Relay.Next;
    var w' := DoProcess(w, s, a);
    Links.ProcessEffect(w, s, a);
    Links.UpCases(json, w, s);
    match w.links[s].up[0]
    case Hail(_) =>
      HailAlone(json, w, s);
      HailGood(w, w', s);
    case Out(UpdateFrame(_)) =>
      Drawn(w);
      Links.LaterFrame(json, w, s);
      UpdateGood(w, w', s);
    case Out(AckFrame(msgId, response)) =>
      ArriveEffect(w.relay, a, s, msgId, response);
      assert w.past != [] && w'.answers[a] == |w.past| - 1;
      AckGood(w, w', s, a);
  }

  lemma ArriveEffect(m: Relay.State, a: nat, s: nat, msgId: u32, response: Bytes)
    requires a !in m.acks
    ensures var m' := Relay.Next(m, Relay.AckArrive(a, s, msgId, response)); m' == m.(acks := m'.acks)
  {}

  lemma HailAlone(json: Bytes -> bool, w: World, s: nat)
    requires Ups(json, w) && s in w.links && w.links[s].up != [] && w.links[s].up[0].Hail?
    ensures |w.links[s].up| == 1
  {
    assert GoodUp(json, w, w.links[s].up);
  }

  lemma ConnectGood(w: World, w': World, s: nat, commits: seq<Commit>)
    requires NewChannel(w, s) && (forall c :: c in commits <==> c.preimage in w.node.records.Live())
    requires w' == w.(links := w.links[s := Link([Hail(commits)], [])], conn := Some(s))
    requires Issued(w) && Good(w)
    ensures Good(w')
  {
    Drawn(w);
    hide Issued, NewChannel, Records.Live;
    ConnectListings(w, w', s, commits);
    hide OwnListings, FirstListed, Listed;
  }

  lemma ConnectListings(w: World, w': World, s: nat, commits: seq<Commit>)
    requires w' == w.(links := w.links[s := Link([Hail(commits)], [])], conn := Some(s))
    requires Sha256(w.cur) in commits && forall c :: c in commits ==> c.preimage in w.node.drawn
    requires OwnListings(w) && FirstListed(w)
    ensures OwnListings(w') && FirstListed(w')
  {
    hide Listed;
  }

  lemma ResultGood(json: Bytes -> bool, w: World, now: nat)
    requires Enabled(json, w, ClientResult(now)) && Good(w) && Few(w) && Inv(json, w)
    ensures Good(DoResult(json, w, now))
  {
    var w' := DoResult(json, w, now);
    var Returned(status, payload) := w.relay.calls[w.waiting.value].pc;
    if status == Wire.SEND_OK {
      var a := Generations.ResultLearned(json, w, payload);
      assert w.After(w.answers[a]) == w.cur;
      assert Listed(w.relay, w.nodeId, w.cur);
    } else {
      assert w'.client == w.client;
    }
    hide Inv, Learned, DoResult, Listed;
    LearnedGood(w, w');
  }

  lemma LearnedGood(w: World, w': World)
    requires w' == w.(client := w'.client, waiting := w'.waiting)
    requires w'.client == w.client || Listed(w.relay, w.nodeId, w.cur)
    requires Good(w)
    ensures Good(w')
  {
    hide Listed;
  }

  /** The new preimage has not been listed yet. */
  lemma HandleGood(json: Bytes -> bool, w: World, e: Event)
    requires e.Handle? && Enabled(json, w, e) && Good(w) && Inv(json, w)
    ensures Good(DoHandle(w, e))
  {
    Generations.HandleNext(json, w, e);
    hide Inv, Enabled, DoHandle, Good, Generations.Answers, Issued;
    var s := w.conn.value;
    Generations.Delivered(json, w);
    Generations.HandleEffect(json, w, e);
    Generations.Renews(json, w, e);
    BeforeHandling(json, w);
    RenewedGood(w, DoHandle(w, e), s, w.links[s].down[0].msgId, e.doc);
  }

  lemma RenewedGood(w: World, w': World, s: nat, msgId: u32, doc: Bytes)
    requires w' == w.(node := w'.node, links := w'.links, past := w'.past, cur := w'.cur)
    requires Generations.Answers(w, w', s, msgId, doc) && w.Their() == Some(w.cur)
    requires w.node.drawn <= w'.node.drawn && w.cur in w.node.drawn && w'.cur !in w.node.drawn
    requires forall t :: t in w.links ==> w.links[t].up == [] || (|w.links[t].up| == 1 && w.links[t].up[0].Hail?)
    requires forall a :: a in w.answers ==> w.answers[a] < |w.past|
    requires Good(w)
    ensures Good(w')
  {
    assert !Listed(w.relay, w.nodeId, w'.cur);
    hide Listed;
  }

  lemma BeforeHandling(json: Bytes -> bool, w: World)
    requires Inv(json, w)
    ensures w.cur in w.node.drawn && forall a :: a in w.answers ==> w.answers[a] < |w.past|
  {
    hide Relayed, View, Sends, Ups, Arrived, Inbound;
    Drawn(w);
    EarlierAnswers(json, w);
  }

  lemma EarlierAnswers(json: Bytes -> bool, w: World)
    requires Arrived(json, w)
    ensures forall a :: a in w.answers ==> w.answers[a] < |w.past|
  {
    forall a | a in w.answers ensures w.answers[a] < |w.past| {
      assert GoodArrival(json, w, a);
    }
  }

  /** Nothing that matters here happened. */
  lemma QuietGood(w: World, w': World)
    requires w' == w.(relay := w'.relay, outbox := w'.outbox, waiting := w'.waiting, links := w'.links, conn := w'.conn)
    requires w'.relay.listed == w.relay.listed && w'.relay.tables.devices == w.relay.tables.devices
    requires forall s :: s in w'.links ==> s in w.links && (w'.links[s].up == w.links[s].up || w'.links[s].up == [])
    requires Good(w)
    ensures Good(w')
  {
    assert forall p :: Listed(w'.relay, w.nodeId, p) <==> Listed(w.relay, w.nodeId, p);
  }

  lemma NetQuiet(m: Relay.State, e: Relay.Event)
    requires Relay.Enabled(m, e) && (e.Invoke? || e.Dequeue? || e.Close?)
    ensures Relay.Next(m, e).listed == m.listed && Relay.Next(m, e).tables.devices == m.tables.devices
  {}

  lemma NetGood(json: Bytes -> bool, w: World, e: Event)
    requires e.ReceiveSend? || e.Forward? || e.End?
    requires Enabled(json, w, e) && Good(w)
    ensures Good(Next(json, w, e))
  {
    hide Good, Relay.Next, Relay.Enabled, Enabled, Next;
    var step := NetMoves(json, w, e);
    NetQuiet(w.relay, step);
    QuietGood(w, Next(json, w, e));
  }

  lemma EndsGood(json: Bytes -> bool, w: World, e: Event)
    requires e.ClientSend? || e.ClientGiveUp? || e.LoseSend? || e.Disconnect?
    requires Enabled(json, w, e) && Good(w)
    ensures Good(Next(json, w, e))
  {
    hide Good;
    QuietGood(w, Next(json, w, e));
  }

  lemma Step(json: Bytes -> bool, w: World, e: Event)
    requires Enabled(json, w, e) && Good(w) && Few(w) && Inv(json, w)
    ensures Good(Next(json, w, e))
  {
    hide Good, Few, Issued, View, Sends, Ups, Arrived, Inbound, Relay.Next, Relay.Enabled, DoProcess, DoHandle,
         DoResult;
    match e
    case ClientResult(now) => ResultGood(json, w, now);
    case RelayStep(step) => RelayGood(w, Next(json, w, e), step);
    case Connect(s, commits) => ConnectGood(w, Next(json, w, e), s, commits);
    case Process(s, a) => ProcessGood(json, w, s, a);
    case Handle(_, _, _, _, _, _) => HandleGood(json, w, e);
    case ReceiveSend(_) => NetGood(json, w, e);
    case Forward(_) => NetGood(json, w, e);
    case End(_) => NetGood(json, w, e);
    case _ => EndsGood(json, w, e);
  }

  lemma {:induction false} RunKeepsGood(json: Bytes -> bool, ws: seq<World>, es: seq<Event>, i: nat)
    requires Run(json, ws, es) && i <= |es| && Few(ws[i])
    ensures Good(ws[i])
    decreases i
  {
    hide Next, Few, Init, Enabled, Inv, Good;
    if i > 0 {
      Generations.StepBefore(json, ws, es, i);
      RunKeepsGood(json, ws, es, i - 1);
      Step(json, ws[i - 1], es[i - 1]);
    } else {
      GoodAtFirst(ws[0]);
    }
  }

  lemma GoodAtFirst(w: World)
    requires Init(w)
    ensures Good(w)
  {}

  // ---------------------------------------------------------------------------
  // What follows for every run
  // ---------------------------------------------------------------------------

  /** When the relay has the response with a new preimage, it has listed that preimage's commit before. */
  lemma ListedBeforeAnswered(json: Bytes -> bool, ws: seq<World>, es: seq<Event>, i: nat, a: nat)
    requires Run(json, ws, es) && i <= |es| && Few(ws[i]) && a in ws[i].relay.acks
    ensures a in ws[i].answers && Carries(json, ws[i].relay.acks[a].response, ws[i].After(ws[i].answers[a]))
    ensures Listed(ws[i].relay, ws[i].nodeId, ws[i].After(ws[i].answers[a]))
  {
    hide Next, Few, Init, Enabled, Inv, Good, Carries, Listed;
    Generations.RunKeepsInv(json, ws, es, i);
    RunKeepsGood(json, ws, es, i);
    AnsweredListed(json, ws[i], a);
  }

  lemma AnsweredListed(json: Bytes -> bool, w: World, a: nat)
    requires a in w.relay.acks && Good(w) && Inv(json, w)
    ensures a in w.answers && Carries(json, w.relay.acks[a].response, w.After(w.answers[a]))
    ensures Listed(w.relay, w.nodeId, w.After(w.answers[a]))
  {
    hide Relayed, Issued, View, Sends, Ups, Inbound, Carries, Listed;
    assert GoodArrival(json, w, a);
  }
}
