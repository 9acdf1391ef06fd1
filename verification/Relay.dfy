/**
 * The relay as a concurrent machine. Any number of `route_message` and `handle_ack` calls
 * run interleaved with registrations, cleanups, the clock and the ends of sessions; one
 * step of the machine is one lock-guarded block of the router, or one operation on a channel.
 */
module Relay {
  import opened Types
  import opened Router
  import Wire

  const CHANNEL_CAPACITY := 32

  /** A call's one-shot response channel, seen from its receiver. */
  datatype Slot = NoChannel | Empty | Full(response: Bytes) | Dropped

  datatype CallPc =
    | Checking | Admitting | Inserting | Enqueuing | Removing | Waiting
    | Returned(status: byte, payload: Bytes)

  /** What admission gave a call. `serial` counts admissions; the id is what is left of it in 32 bits. */
  datatype Ticket = Ticket(serial: nat, msgId: u32, channel: nat)

  /** One run of `route_message`. */
  datatype Call = Call(
    to: Id, preimage: Preimage, payload: Bytes,
    ticket: Option<Ticket>, slot: Slot, pc: CallPc)

  datatype AckPc = Taking | Storing(entry: PendingSend) | Completing(call: nat) | Finished

  /** One run of `handle_ack`, for the session of channel `session`. */
  datatype Ack = Ack(session: nat, msgId: u32, response: Bytes, pc: AckPc) {
    /** The call whose one-shot sender this run has in its hands. */
    function Held(): Option<nat> {
      match pc
      case Storing(entry) => Some(entry.call)
      case Completing(call) => Some(call)
      case _ => None
    }
  }

  datatype Delivery = Delivery(msgId: u32, preimage: Preimage, payload: Bytes)

  /**
   * `calls` and `acks` keep finished runs. `serials`, `listed` and `loaded` are history: how
   * many ids were given out, how often register or add_commits calls listed each commit, and
   * which responses register calls loaded.
   */
  datatype State = State(
    tables: Tables,
    calls: map<nat, Call>,
    acks: map<nat, Ack>,
    queues: map<nat, seq<Delivery>>,
    closed: set<nat>,
    now: nat,
    serials: nat,
    listed: multiset<(Id, Commit)>,
    loaded: set<(Preimage, Bytes)>)
  {
    function Queue(channel: nat): seq<Delivery> {
      if channel in queues then queues[channel] else []
    }

    function WithCall(k: nat, call: Call): State {
      this.(calls := calls[k := call])
    }

    function WithAckPc(a: nat, pc: AckPc): State
      requires a in acks
    {
      this.(acks := acks[a := acks[a].(pc := pc)])
    }

    /** The sender of call `c`, if it still exists, goes away unused. */
    function DropSender(c: nat): State {
      if c in calls then WithCall(c, calls[c].(slot := Dropped)) else this
    }

    /** Removing an entry from `pending` destroys the sender stored in it. */
    function DropSenderAt(msgId: u32): State {
      if msgId in tables.pending then DropSender(tables.pending[msgId].call) else this
    }
  }

  const START := State(Tables(map[], map[], map[], 1), map[], map[], map[], {}, 0, 0, multiset{}, {})

  datatype Event =
    | Invoke(call: nat, to: Id, preimage: Preimage, payload: Bytes)
    | Check(call: nat)
    | Admit(call: nat)
    | Insert(call: nat)
    | Enqueue(call: nat)
    | Remove(call: nat)
    | Receive(call: nat)
    | SeeClosed(call: nat)
    | TimeOut(call: nat)
    | AckArrive(ack: nat, session: nat, msgId: u32, response: Bytes)
    | AckTake(ack: nat)
    | AckStore(ack: nat)
    | AckComplete(ack: nat)
    | Register(id: Id, commits: seq<Commit>, recent: Recent, channel: nat)
    | Unregister(id: Id)
    | AddCommits(id: Id, commits: seq<Commit>)
    | Cleanup
    | Tick(elapsed: nat)
    | Dequeue(channel: nat)
    | Close(channel: nat)

  predicate At(m: State, k: nat, pc: CallPc) {
    k in m.calls && m.calls[k].pc == pc
  }

  predicate Enabled(m: State, e: Event) {
    match e
    case Invoke(k, _, _, _) => k !in m.calls
    case Check(k) => At(m, k, Checking)
    case Admit(k) => At(m, k, Admitting)
    case Insert(k) => At(m, k, Inserting) && m.calls[k].ticket.Some?
    case Enqueue(k) =>
      && At(m, k, Enqueuing) && m.calls[k].ticket.Some?
      && var ch := m.calls[k].ticket.value.channel;
         ch in m.closed || |m.Queue(ch)| < CHANNEL_CAPACITY
    case Remove(k) => At(m, k, Removing) && m.calls[k].ticket.Some?
    case Receive(k) => At(m, k, Waiting) && m.calls[k].slot.Full?
    case SeeClosed(k) => At(m, k, Waiting) && m.calls[k].slot.Dropped?
    // a timer may fire at any moment of the wait, even just after the response came in
    case TimeOut(k) => At(m, k, Waiting)
    // any session may acknowledge any id, any number of times
    case AckArrive(a, _, _, _) => a !in m.acks
    case AckTake(a) => a in m.acks && m.acks[a].pc.Taking?
    case AckStore(a) => a in m.acks && m.acks[a].pc.Storing?
    case AckComplete(a) => a in m.acks && m.acks[a].pc.Completing?
    case Dequeue(ch) => ch !in m.closed && m.Queue(ch) != []
    case _ => true
  }

  // Each says what it may change; the rest of the state stays as it is.

  function DoCheck(m: State, k: nat): (m': State)
    requires k in m.calls
    ensures m' == m.(tables := m.tables.(cache := m'.tables.cache), calls := m'.calls) && m'.calls.Keys == m.calls.Keys
  {
    var call := m.calls[k];
    var (tables, hit) := m.tables.TakeCached(call.preimage, m.now);
    var pc := if hit.Some? then Returned(Wire.SEND_OK, hit.value) else Admitting;
    m.(tables := tables).WithCall(k, call.(pc := pc))
  }

  function DoAdmit(m: State, k: nat): (m': State)
    requires k in m.calls
    ensures m' == m.(tables := m.tables.(devices := m'.tables.devices, nextId := m'.tables.nextId),
                  calls := m'.calls, serials := m'.serials) && m'.calls.Keys == m.calls.Keys
  {
    var call := m.calls[k];
    var (tables, admission) := m.tables.Admit(call.to, Sha256(call.preimage), m.closed);
    match admission
    case NotConnected => m.(tables := tables).WithCall(k, call.(pc := Returned(Wire.SEND_ERR_NOT_CONNECTED, [])))
    case InvalidPreimage => m.(tables := tables).WithCall(k, call.(pc := Returned(Wire.SEND_ERR_INVALID_PREIMAGE, [])))
    case Admitted(msgId, channel) =>
      m.(tables := tables, serials := m.serials + 1)
       .WithCall(k, call.(ticket := Some(Ticket(m.serials, msgId, channel)), pc := Inserting))
  }

  function DoInsert(m: State, k: nat): (m': State)
    requires k in m.calls && m.calls[k].ticket.Some?
    ensures m' == m.(tables := m.tables.(pending := m'.tables.pending), calls := m'.calls)
    ensures m'.calls.Keys == m.calls.Keys
  {
    var call := m.calls[k];
    var msgId := call.ticket.value.msgId;
    m.DropSenderAt(msgId).(tables := m.tables.InsertPending(msgId, call.preimage, k))
     .WithCall(k, call.(slot := Empty, pc := Enqueuing))
  }

  function DoEnqueue(m: State, k: nat): (m': State)
    requires k in m.calls && m.calls[k].ticket.Some?
    ensures m' == m.(queues := m'.queues, calls := m'.calls) && m'.calls.Keys == m.calls.Keys
  {
    var call := m.calls[k];
    var Ticket(_, msgId, ch) := call.ticket.value;
    if ch in m.closed then m.WithCall(k, call.(pc := Removing))
    else m.(queues := m.queues[ch := m.Queue(ch) + [Delivery(msgId, call.preimage, call.payload)]])
          .WithCall(k, call.(pc := Waiting))
  }

  function Return(m: State, k: nat, status: byte, payload: Bytes): (m': State)
    requires k in m.calls
    ensures m' == m.(calls := m'.calls) && m'.calls.Keys == m.calls.Keys
  {
    m.WithCall(k, m.calls[k].(pc := Returned(status, payload)))
  }

  function DoRemove(m: State, k: nat): (m': State)
    requires k in m.calls && m.calls[k].ticket.Some?
    ensures m' == m.(tables := m.tables.(pending := m'.tables.pending), calls := m'.calls)
    ensures m'.calls.Keys == m.calls.Keys
  {
    var msgId := m.calls[k].ticket.value.msgId;
    Return(m.DropSenderAt(msgId).(tables := m.tables.DropPending(msgId)), k, Wire.SEND_ERR_DISCONNECTED, [])
  }

  function DoAckTake(m: State, a: nat): (m': State)
    requires a in m.acks
    ensures m' == m.(tables := m.tables.(pending := m'.tables.pending), acks := m'.acks) && m'.acks.Keys == m.acks.Keys
  {
    var (tables, entry) := m.tables.TakePending(m.acks[a].msgId);
    m.(tables := tables).WithAckPc(a, if entry.Some? then Storing(entry.value) else Finished)
  }

  function DoAckStore(m: State, a: nat): (m': State)
    requires a in m.acks && m.acks[a].pc.Storing?
    ensures m' == m.(tables := m.tables.(cache := m'.tables.cache), acks := m'.acks) && m'.acks.Keys == m.acks.Keys
  {
    var entry := m.acks[a].pc.entry;
    m.(tables := m.tables.StoreResponse(entry.preimage, m.acks[a].response, m.now))
     .WithAckPc(a, Completing(entry.call))
  }

  /** Sending on the one-shot; a receiver that has given up leaves the response unread. */
  function DoAckComplete(m: State, a: nat): (m': State)
    requires a in m.acks && m.acks[a].pc.Completing?
    ensures m' == m.(calls := m'.calls, acks := m'.acks) && m'.calls.Keys == m.calls.Keys && m'.acks.Keys == m.acks.Keys
  {
    var c := m.acks[a].pc.call;
    var m' := m.WithAckPc(a, Finished);
    if c in m.calls then m'.WithCall(c, m.calls[c].(slot := Full(m.acks[a].response))) else m'
  }

  function Next(m: State, e: Event): State
    requires Enabled(m, e)
  {
    match e
    case Invoke(k, to, p, payload) => m.WithCall(k, Call(to, p, payload, None, NoChannel, Checking))
    case Check(k) => DoCheck(m, k)
    case Admit(k) => DoAdmit(m, k)
    case Insert(k) => DoInsert(m, k)
    case Enqueue(k) => DoEnqueue(m, k)
    case Remove(k) => DoRemove(m, k)
    case Receive(k) => Return(m, k, Wire.SEND_OK, m.calls[k].slot.response)
    case SeeClosed(k) => Return(m, k, Wire.SEND_ERR_DISCONNECTED, [])
    case TimeOut(k) => Return(m, k, Wire.SEND_ERR_TIMEOUT, [])
    case AckArrive(a, session, msgId, response) => m.(acks := m.acks[a := Ack(session, msgId, response, Taking)])
    case AckTake(a) => DoAckTake(m, a)
    case AckStore(a) => DoAckStore(m, a)
    case AckComplete(a) => DoAckComplete(m, a)
    case Register(id, commits, recent, ch) =>
      m.(tables := m.tables.Register(id, commits, recent, ch, m.now),
         listed := m.listed + multiset(set c | c in commits :: (id, c)),
         loaded := m.loaded + set r | r in recent)
    case Unregister(id) => m.(tables := m.tables.Unregister(id))
    case AddCommits(id, commits) =>
      m.(tables := m.tables.AddCommits(id, commits),
         listed := m.listed + multiset(set c | c in commits :: (id, c)))
    case Cleanup => m.(tables := m.tables.Cleanup(m.now))
    case Tick(elapsed) => m.(now := m.now + elapsed)
    case Dequeue(ch) => m.(queues := m.queues[ch := m.Queue(ch)[1..]])
    case Close(ch) => m.(closed := m.closed + {ch}, queues := m.queues - {ch})
  }

  // ---------------------------------------------------------------------------
  // What steps leave alone
  // ---------------------------------------------------------------------------

  lemma DevicesFrame(m: State, e: Event)
    requires Enabled(m, e) && !e.Register? && !e.Unregister? && !e.AddCommits? && !e.Admit?
    ensures Next(m, e).tables.devices == m.tables.devices
  {
    hide DoCheck, DoAdmit, DoInsert, DoEnqueue, DoRemove, Return, DoAckTake, DoAckStore, DoAckComplete;
  }

  lemma CacheFrame(m: State, e: Event)
    requires Enabled(m, e) && !e.Register? && !e.Check? && !e.AckStore? && !e.Cleanup?
    ensures Next(m, e).tables.cache == m.tables.cache
  {
    hide DoCheck, DoAdmit, DoInsert, DoEnqueue, DoRemove, Return, DoAckTake, DoAckStore, DoAckComplete;
  }

  lemma PendingFrame(m: State, e: Event)
    requires Enabled(m, e) && !e.Insert? && !e.Remove? && !e.AckTake?
    ensures Next(m, e).tables.pending == m.tables.pending
  {
    hide DoCheck, DoAdmit, DoInsert, DoEnqueue, DoRemove, Return, DoAckTake, DoAckStore, DoAckComplete;
  }

  lemma ChannelsFrame(m: State, e: Event)
    requires Enabled(m, e)
    ensures var m' := Next(m, e);
            && (e.Enqueue? || e.Dequeue? || e.Close? || m'.queues == m.queues)
            && (e.Close? || m'.closed == m.closed)
            && (e.Tick? || m'.now == m.now)
            && (e.Admit? || m'.serials == m.serials)
            && (e.Register? || e.AddCommits? || m'.listed == m.listed)
            && (e.Register? || m'.loaded == m.loaded) && m.loaded <= m'.loaded
  {
    hide DoCheck, DoAdmit, DoInsert, DoEnqueue, DoRemove, Return, DoAckTake, DoAckStore, DoAckComplete;
  }

  predicate SameCall(c: Call, c': Call) {
    c'.to == c.to && c'.preimage == c.preimage && c'.payload == c.payload
  }

  lemma CallPersists(m: State, e: Event, k: nat)
    requires Enabled(m, e) && k in m.calls
    ensures k in Next(m, e).calls && SameCall(m.calls[k], Next(m, e).calls[k])
    ensures Next(m, e).calls[k].ticket == m.calls[k].ticket || e == Admit(k)
  {
    match e
    case Insert(j) =>
      DropPersists(m, m.calls[j].ticket.value.msgId, k);
      hide State.DropSenderAt;
    case Remove(j) =>
      DropPersists(m, m.calls[j].ticket.value.msgId, k);
      hide State.DropSenderAt;
    case Check(j) => hide DoCheck; CheckPersists(m, j, k);
    case Admit(j) => hide DoAdmit; AdmitPersists(m, j, k);
    case Enqueue(j) => hide DoEnqueue; EnqueuePersists(m, j, k);
    case AckComplete(a) => hide DoAckComplete; CompletePersists(m, a, k);
    case _ =>
      hide DoCheck, DoAdmit, DoInsert, DoEnqueue, DoRemove, DoAckTake, DoAckStore, DoAckComplete;
  }

  lemma CheckPersists(m: State, j: nat, k: nat)
    requires j in m.calls && k in m.calls
    ensures SameCall(m.calls[k], DoCheck(m, j).calls[k]) && DoCheck(m, j).calls[k].ticket == m.calls[k].ticket
  {}

  lemma AdmitPersists(m: State, j: nat, k: nat)
    requires j in m.calls && k in m.calls
    ensures SameCall(m.calls[k], DoAdmit(m, j).calls[k])
    ensures DoAdmit(m, j).calls[k].ticket == m.calls[k].ticket || j == k
  {}

  lemma EnqueuePersists(m: State, j: nat, k: nat)
    requires j in m.calls && k in m.calls && m.calls[j].ticket.Some?
    ensures SameCall(m.calls[k], DoEnqueue(m, j).calls[k]) && DoEnqueue(m, j).calls[k].ticket == m.calls[k].ticket
  {}

  lemma CompletePersists(m: State, a: nat, k: nat)
    requires a in m.acks && m.acks[a].pc.Completing? && k in m.calls
    ensures SameCall(m.calls[k], DoAckComplete(m, a).calls[k]) && DoAckComplete(m, a).calls[k].ticket == m.calls[k].ticket
  {}

  lemma DropPersists(m: State, msgId: u32, k: nat)
    requires k in m.calls
    ensures k in m.DropSenderAt(msgId).calls && SameCall(m.calls[k], m.DropSenderAt(msgId).calls[k])
    ensures m.DropSenderAt(msgId).calls[k].ticket == m.calls[k].ticket
  {}

  /** Calls and handle_ack runs are never forgotten, and what they were about never changes. */
  lemma CallsPersist(m: State, e: Event)
    requires Enabled(m, e)
    ensures forall k :: k in m.calls ==>
              && k in Next(m, e).calls && SameCall(m.calls[k], Next(m, e).calls[k])
              && (Next(m, e).calls[k].ticket == m.calls[k].ticket || e == Admit(k))
  {
    hide Next;
    forall k | k in m.calls
      ensures k in Next(m, e).calls && SameCall(m.calls[k], Next(m, e).calls[k])
      ensures Next(m, e).calls[k].ticket == m.calls[k].ticket || e == Admit(k)
    {
      CallPersists(m, e, k);
    }
  }

  lemma AcksPersist(m: State, e: Event)
    requires Enabled(m, e)
    ensures forall a :: a in m.acks ==>
              && a in Next(m, e).acks
              && Next(m, e).acks[a].session == m.acks[a].session
              && Next(m, e).acks[a].msgId == m.acks[a].msgId && Next(m, e).acks[a].response == m.acks[a].response
  {}

  /** The only events that bring in a new call, and a new handle_ack run. */
  lemma Arrivals(m: State, e: Event)
    requires Enabled(m, e)
    ensures Next(m, e).calls.Keys == m.calls.Keys + if e.Invoke? then {e.call} else {}
    ensures Next(m, e).acks.Keys == m.acks.Keys + if e.AckArrive? then {e.ack} else {}
  {
    hide DoCheck, DoAdmit, DoInsert, DoEnqueue, DoRemove, Return, DoAckTake, DoAckStore, DoAckComplete;
  }

  /** Program counters move only by the call's own steps, and never back from the wait. */
  lemma PcFrame(m: State, e: Event)
    requires Enabled(m, e)
    ensures forall k :: k in m.calls && k in Next(m, e).calls ==>
              var pc, pc' := m.calls[k].pc, Next(m, e).calls[k].pc;
              && (pc.Waiting? || pc.Returned? ==> pc'.Waiting? || pc'.Returned?)
              && (pc' == pc ||
                  ((e.Check? || e.Admit? || e.Insert? || e.Enqueue? || e.Remove? || e.Receive? || e.SeeClosed? || e.TimeOut?)
                   && e.call == k))
  {}

  /** A run: it starts empty and every step is enabled where it is taken. */
  ghost predicate Run(ms: seq<State>, es: seq<Event>) {
    && |ms| == |es| + 1 && ms[0] == START
    && forall i :: 0 <= i < |es| ==> Enabled(ms[i], es[i]) && ms[i + 1] == Next(ms[i], es[i])
  }

  ghost predicate Reachable(m: State) {
    exists ms, es :: Run(ms, es) && m == ms[|es|]
  }

  /** These events can be done one after the other. */
  ghost predicate CanDo(m: State, es: seq<Event>)
    decreases |es|
  {
    es == [] || (Enabled(m, es[0]) && CanDo(Next(m, es[0]), es[1..]))
  }

  ghost function After(m: State, es: seq<Event>): State
    requires CanDo(m, es)
    decreases |es|
  {
    if es == [] then m else After(Next(m, es[0]), es[1..])
  }

  lemma {:induction false} CanDoMore(m: State, es: seq<Event>, e: Event)
    requires CanDo(m, es) && Enabled(After(m, es), e)
    ensures CanDo(m, es + [e]) && After(m, es + [e]) == Next(After(m, es), e)
    decreases |es|
  {
    hide Enabled, Next;
    if es == [] {
      assert es + [e] == [e] && [e][1..] == [];
    } else {
      assert (es + [e])[1..] == es[1..] + [e];
      CanDoMore(Next(m, es[0]), es[1..], e);
    }
  }

  lemma {:induction false} CanDoBoth(m: State, es1: seq<Event>, es2: seq<Event>)
    requires CanDo(m, es1) && CanDo(After(m, es1), es2)
    ensures CanDo(m, es1 + es2) && After(m, es1 + es2) == After(After(m, es1), es2)
    decreases |es1|
  {
    hide Enabled, Next;
    if es1 == [] {
      assert es1 + es2 == es2;
    } else {
      assert (es1 + es2)[1..] == es1[1..] + es2;
      CanDoBoth(Next(m, es1[0]), es1[1..], es2);
    }
  }
}
