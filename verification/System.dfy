/**
 * One client, one relay and one device that were paired once, running together. Connections
 * are lost at any moment, a send is given up and tried again, the device comes and goes, and
 * frames of connections it has left behind may still reach the relay.
 */
module System {
  import opened Types
  import opened Device
  import opened Nodes
  import History
  import Relay
  import Wire

  /** What the device writes to a connection: its I_AM first, then what its messages call for. */
  datatype UpFrame = Hail(commits: seq<Commit>) | Out(frame: OutFrame)

  /** A connection of the device, with whole frames in transit in both directions. */
  datatype Link = Link(up: seq<UpFrame>, down: seq<Relay.Delivery>)

  /** A SEND in transit. */
  datatype Sending = Sending(preimage: Preimage, payload: Bytes)

  /**
   * The client's sends are named like the `route_message` calls they lead to, and connections
   * of the device like the delivery channels of their sessions. `past` and `cur` are the preimages that
   * the device issued to the client: the consumed ones, in order, and the live one. `answers`
   * is history: it says which of `past` a handle_ack run answers.
   */
  datatype World = World(
    relay: Relay.State,
    nodeId: Id, node: History.Machine,
    clientId: Id, client: Records,
    outbox: map<nat, Sending>, waiting: Option<nat>,
    links: map<nat, Link>, conn: Option<nat>,
    past: seq<Preimage>, cur: Preimage,
    answers: map<nat, nat>)
  {
    function Their(): Option<Preimage> {
      client.GetPeerPreimage(nodeId)
    }

    /** The generation after the `j`-th. */
    function After(j: nat): Preimage {
      if j + 1 < |past| then past[j + 1] else cur
    }

    function Open(channel: nat): bool {
      channel in links && channel !in relay.closed
    }
  }

  datatype Event =
    | ClientSend(call: nat, payload: Bytes)
    | ClientGiveUp
    | ClientResult(now: nat)
    | LoseSend(call: nat)
    | ReceiveSend(call: nat)
    | RelayStep(step: Relay.Event)
    | Connect(channel: nat, commits: seq<Commit>)
    | Disconnect
    | Process(channel: nat, ack: nat)
    | Forward(channel: nat)
    | End(channel: nat)
    | Handle(from: Lookup, req: Option<Request>, pick: Option<Preimage>, draws: Draws, doc: Bytes, now: nat)

  /** Steps that the relay takes by itself. */
  predicate Internal(e: Relay.Event) {
    match e
    case Check(_) | Admit(_) | Insert(_) | Enqueue(_) | Remove(_) => true
    case Receive(_) | SeeClosed(_) | TimeOut(_) => true
    case AckTake(_) | AckStore(_) | AckComplete(_) => true
    case Cleanup | Tick(_) => true
    case _ => false
  }

  /** A channel that was just made: nobody holds an end of it yet. */
  ghost predicate NewChannel(w: World, channel: nat) {
    && channel !in w.links && channel !in w.relay.closed && channel !in w.relay.queues
    && (w.nodeId in w.relay.tables.devices ==> w.relay.tables.devices[w.nodeId].channel != channel)
    && forall k :: k in w.relay.calls && w.relay.calls[k].ticket.Some? ==> w.relay.calls[k].ticket.value.channel != channel
  }

  /** The command that the next delivered message of a connection makes the device run. */
  function CommandOf(d: Relay.Delivery, e: Event): History.Event
    requires e.Handle?
  {
    History.Command(d.preimage, e.from, e.req, e.pick, e.draws, e.now)
  }

  ghost predicate Enabled(json: Bytes -> bool, w: World, e: Event) {
    match e
    // a request is a JSON text, so it never looks like a handshake
    case ClientSend(k, payload) =>
      w.waiting.None? && w.Their().Some? && k !in w.outbox && k !in w.relay.calls && !IsHandshake(payload)
    case ClientGiveUp => w.waiting.Some?
    case ClientResult(_) =>
      w.waiting.Some? && w.waiting.value in w.relay.calls && w.relay.calls[w.waiting.value].pc.Returned?
    case LoseSend(k) => k in w.outbox
    case ReceiveSend(k) => k in w.outbox && k !in w.relay.calls
    case RelayStep(step) => Internal(step) && Relay.Enabled(w.relay, step)
    case Connect(s, commits) =>
      && w.conn.None? && NewChannel(w, s)
      && forall c :: c in commits <==> c.preimage in w.node.records.Live()
    case Disconnect => w.conn.Some?
    case Process(s, a) => w.Open(s) && w.links[s].up != [] && a !in w.relay.acks
    case Forward(s) => w.Open(s) && w.relay.Queue(s) != []
    case End(s) => w.Open(s)
    case Handle(_, _, _, _, doc, _) =>
      && w.conn.Some? && w.conn.value in w.links && w.links[w.conn.value].down != []
      && History.Enabled(w.node, CommandOf(w.links[w.conn.value].down[0], e))
      && doc != [] && json(doc)
  }

  function DoResult(json: Bytes -> bool, w: World, now: nat): (w': World)
    requires w.waiting.Some? && w.waiting.value in w.relay.calls && w.relay.calls[w.waiting.value].pc.Returned?
    ensures w' == w.(client := w'.client, waiting := None)
  {
    var Returned(status, payload) := w.relay.calls[w.waiting.value].pc;
    var learned := if status == Wire.SEND_OK then Learned(json, payload) else None;
    w.(waiting := None,
       client := if learned.Some? then w.client.UpdatePeerPreimage(w.nodeId, learned.value, now) else w.client)
  }

  /** The generation that an answer in transit answers. */
  function Latest(w: World): nat {
    if w.past == [] then 0 else |w.past| - 1
  }

  /** A session handles the next frame of its connection. */
  function DoProcess(w: World, s: nat, a: nat): (w': World)
    requires w.Open(s) && w.links[s].up != [] && a !in w.relay.acks
    ensures w' == w.(relay := w'.relay, links := w.links[s := w.links[s].(up := w.links[s].up[1..])],
                  answers := w'.answers)
  {
    var w' := w.(links := w.links[s := w.links[s].(up := w.links[s].up[1..])]);
    match w.links[s].up[0]
    case Hail(commits) =>
      w'.(relay := Relay.Next(w.relay, Relay.Register(w.nodeId, commits, [], s)))
    case Out(UpdateFrame(commits)) =>
      w'.(relay := Relay.Next(w.relay, Relay.AddCommits(w.nodeId, commits)))
    case Out(AckFrame(msgId, response)) =>
      w'.(relay := Relay.Next(w.relay, Relay.AckArrive(a, s, msgId, response)),
          answers := w.answers[a := Latest(w)])
  }

  function Outs(frames: seq<OutFrame>): seq<UpFrame> {
    seq(|frames|, i requires 0 <= i < |frames| => Out(frames[i]))
  }

  /** The device handles a message up to and including the frames it writes, which a dead connection loses. */
  ghost function DoHandle(w: World, e: Event): (w': World)
    requires e.Handle? && w.conn.Some? && w.conn.value in w.links && w.links[w.conn.value].down != []
    requires History.Enabled(w.node, CommandOf(w.links[w.conn.value].down[0], e))
    ensures w' == w.(node := w'.node, links := w'.links, past := w'.past, cur := w'.cur)
  {
    var s := w.conn.value;
    var d := w.links[s].down[0];
    var h := CommandOutcome(w.node.records, e.from, d.preimage, e.req, e.pick, e.draws, e.now);
    var up := if w.Open(s) then Outs(CommandFrames(d.msgId, h, e.doc)) else [];
    w.(node := History.Next(w.node, CommandOf(d, e)),
       links := w.links[s := Link(w.links[s].up + up, w.links[s].down[1..])],
       past := if h.renewed.Some? then w.past + [w.cur] else w.past,
       cur := if h.renewed.Some? then h.renewed.value else w.cur)
  }

  ghost function Next(json: Bytes -> bool, w: World, e: Event): World
    requires Enabled(json, w, e)
  {
    match e
    case ClientSend(k, payload) =>
      w.(outbox := w.outbox[k := Sending(w.Their().value, payload)], waiting := Some(k))
    case ClientGiveUp => w.(waiting := None)
    case ClientResult(now) => DoResult(json, w, now)
    case LoseSend(k) => w.(outbox := w.outbox - {k})
    case ReceiveSend(k) =>
      w.(outbox := w.outbox - {k},
         relay := Relay.Next(w.relay, Relay.Invoke(k, w.nodeId, w.outbox[k].preimage, w.outbox[k].payload)))
    case RelayStep(step) => w.(relay := Relay.Next(w.relay, step))
    case Connect(s, commits) => w.(links := w.links[s := Link([Hail(commits)], [])], conn := Some(s))
    case Disconnect => w.(conn := None)
    case Process(s, a) => DoProcess(w, s, a)
    case Forward(s) =>
      w.(relay := Relay.Next(w.relay, Relay.Dequeue(s)),
         links := w.links[s := w.links[s].(down := w.links[s].down + [w.relay.Queue(s)[0]])])
    case End(s) =>
      w.(relay := Relay.Next(w.relay, Relay.Close(s)), links := w.links[s := w.links[s].(up := [])])
    case Handle(_, _, _, _, _, _) => DoHandle(w, e)
  }

  /** What the relay does in a step. */
  function RelayEvent(w: World, e: Event): Option<Relay.Event> {
    match e
    case ReceiveSend(k) =>
      if k in w.outbox then Some(Relay.Invoke(k, w.nodeId, w.outbox[k].preimage, w.outbox[k].payload)) else None
    case RelayStep(step) => Some(step)
    case Process(s, a) =>
      if s !in w.links || w.links[s].up == [] then None
      else (match w.links[s].up[0]
            case Hail(commits) => Some(Relay.Register(w.nodeId, commits, [], s))
            case Out(UpdateFrame(commits)) => Some(Relay.AddCommits(w.nodeId, commits))
            case Out(AckFrame(msgId, response)) => Some(Relay.AckArrive(a, s, msgId, response)))
    case Forward(s) => Some(Relay.Dequeue(s))
    case End(s) => Some(Relay.Close(s))
    case _ => None
  }

  lemma RelayAfter(json: Bytes -> bool, w: World, e: Event)
    requires Enabled(json, w, e)
    ensures match RelayEvent(w, e)
            case Some(step) => Relay.Enabled(w.relay, step) && Next(json, w, e).relay == Relay.Next(w.relay, step)
            case None => Next(json, w, e).relay == w.relay
  {
    hide Relay.Next;
  }

  /** A step between the two ends of a connection, or into the relay. */
  lemma NetMoves(json: Bytes -> bool, w: World, e: Event) returns (step: Relay.Event)
    requires (e.ReceiveSend? || e.Forward? || e.End?) && Enabled(json, w, e)
    ensures RelayEvent(w, e) == Some(step) && (step.Invoke? || step.Dequeue? || step.Close?)
    ensures Relay.Enabled(w.relay, step)
    ensures var w' := Next(json, w, e);
            && w' == w.(relay := Relay.Next(w.relay, step), outbox := w'.outbox, links := w'.links)
            && w'.links.Keys == w.links.Keys
            && forall s :: s in w.links ==> w'.links[s].up == w.links[s].up || (e == End(s) && w'.links[s].up == [])
  {
    hide Relay.Next, NewChannel, History.Enabled, DoHandle, DoProcess, DoResult;
    step := RelayEvent(w, e).value;
  }

  /** The other steps leave connections as they are, unless the device makes one. */
  lemma LinksRest(json: Bytes -> bool, w: World, e: Event)
    requires !e.Handle? && !e.Process? && !e.ReceiveSend? && !e.Forward? && !e.End? && Enabled(json, w, e)
    ensures Next(json, w, e).links == if e.Connect? then w.links[e.channel := Link([Hail(e.commits)], [])] else w.links
  {
    hide Relay.Next, Relay.Enabled, NewChannel;
  }

  /** Right after the pairing: both sides agree on one preimage, and nothing is under way. */
  ghost predicate Init(w: World) {
    && w.relay == Relay.START
    && History.Reachable(w.node)
    && w.clientId in w.node.records.peers && w.node.records.peers[w.clientId].issued == [w.cur]
    && w.Their() == Some(w.cur)
    && w.outbox == map[] && w.waiting == None && w.links == map[] && w.conn == None
    && w.past == [] && w.answers == map[]
  }

  ghost predicate Run(json: Bytes -> bool, ws: seq<World>, es: seq<Event>) {
    && |ws| == |es| + 1 && Init(ws[0])
    && forall i :: 0 <= i < |es| ==> Enabled(json, ws[i], es[i]) && ws[i + 1] == Next(json, ws[i], es[i])
  }

  // ---------------------------------------------------------------------------
  // Schedules
  // ---------------------------------------------------------------------------

  ghost predicate CanDo(json: Bytes -> bool, w: World, es: seq<Event>)
    decreases |es|
  {
    es == [] || (Enabled(json, w, es[0]) && CanDo(json, Next(json, w, es[0]), es[1..]))
  }

  ghost function After(json: Bytes -> bool, w: World, es: seq<Event>): World
    requires CanDo(json, w, es)
    decreases |es|
  {
    if es == [] then w else After(json, Next(json, w, es[0]), es[1..])
  }

  lemma {:induction false} CanDoMore(json: Bytes -> bool, w: World, es: seq<Event>, e: Event)
    requires CanDo(json, w, es) && Enabled(json, After(json, w, es), e)
    ensures CanDo(json, w, es + [e]) && After(json, w, es + [e]) == Next(json, After(json, w, es), e)
    decreases |es|
  {
    hide Enabled, Next;
    if es == [] {
      assert es + [e] == [e] && [e][1..] == [];
    } else {
      assert (es + [e])[1..] == es[1..] + [e];
      CanDoMore(json, Next(json, w, es[0]), es[1..], e);
    }
  }

  lemma {:induction false} CanDoBoth(json: Bytes -> bool, w: World, es1: seq<Event>, es2: seq<Event>)
    requires CanDo(json, w, es1) && CanDo(json, After(json, w, es1), es2)
    ensures CanDo(json, w, es1 + es2) && After(json, w, es1 + es2) == After(json, After(json, w, es1), es2)
    decreases |es1|
  {
    hide Enabled, Next;
    if es1 == [] {
      assert es1 + es2 == es2;
    } else {
      assert (es1 + es2)[1..] == es1[1..] + es2;
      CanDoBoth(json, Next(json, w, es1[0]), es1[1..], es2);
    }
  }

  lemma CanDoOne(json: Bytes -> bool, w: World, e: Event)
    requires Enabled(json, w, e)
    ensures CanDo(json, w, [e]) && After(json, w, [e]) == Next(json, w, e)
  {
    hide Enabled, Next;
    CanDoMore(json, w, [], e);
    assert [] + [e] == [e];
  }

  /** A schedule from a starting state is a run. */
  lemma {:induction false} RunOf(json: Bytes -> bool, w: World, es: seq<Event>) returns (ws: seq<World>)
    requires CanDo(json, w, es)
    ensures |ws| == |es| + 1 && ws[0] == w && ws[|es|] == After(json, w, es)
    ensures forall i :: 0 <= i < |es| ==> Enabled(json, ws[i], es[i]) && ws[i + 1] == Next(json, ws[i], es[i])
    decreases |es|
  {
    hide Enabled, Next;
    if es == [] {
      ws := [w];
    } else {
      var rest := RunOf(json, Next(json, w, es[0]), es[1..]);
      ws := [w] + rest;
      forall i | 0 <= i < |es|
        ensures Enabled(json, ws[i], es[i]) && ws[i + 1] == Next(json, ws[i], es[i])
      {
        if i > 0 {
          assert es[i] == es[1..][i - 1] && ws[i] == rest[i - 1] && ws[i + 1] == rest[i];
        }
      }
    }
  }

  function Lifted(es: seq<Relay.Event>): seq<Event> {
    if es == [] then [] else [RelayStep(es[0])] + Lifted(es[1..])
  }

  /** Steps that the relay can take by itself, it can take here. */
  lemma {:induction false} CanLift(json: Bytes -> bool, w: World, es: seq<Relay.Event>)
    requires Relay.CanDo(w.relay, es) && forall e :: e in es ==> Internal(e)
    ensures CanDo(json, w, Lifted(es)) && After(json, w, Lifted(es)) == w.(relay := Relay.After(w.relay, es))
    decreases |es|
  {
    if es == [] {
    } else {
      var e := RelayStep(es[0]);
      assert es[0] in es && Enabled(json, w, e) && Next(json, w, e) == w.(relay := Relay.Next(w.relay, es[0]));
      hide Enabled, Next, Relay.Enabled, Relay.Next;
      CanLift(json, Next(json, w, e), es[1..]);
      CanDoOne(json, w, e);
      CanDoBoth(json, w, [e], Lifted(es[1..]));
    }
  }
}
