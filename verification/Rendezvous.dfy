/**
 * The rendezvous of a waiting call with its answer: every call that has created its one-shot
 * channel has the sender of that channel in exactly one place, whatever is interleaved.
 */
module Rendezvous {
  import opened Types
  import opened Router
  import opened Relay
  import Wire

  /** The id that the `serial`-th admission gets from the 32-bit counter, which starts at 1. */
  function IdOf(serial: nat): u32 {
    (1 + serial) % Wire.U32_SIZE
  }

  predicate CallShape(c: Call) {
    match c.pc
    case Checking | Admitting => c.ticket.None? && c.slot == NoChannel
    case Inserting => c.ticket.Some? && c.slot == NoChannel
    case Returned(_, _) => c.ticket.None? <==> c.slot == NoChannel
    case _ => c.ticket.Some? && c.slot != NoChannel
  }

  /** Tickets carry the ids the counter gave out, each serial to one call. */
  ghost predicate Tickets(calls: map<nat, Call>, serials: nat, nextId: u32) {
    && nextId == IdOf(serials)
    && (forall k :: k in calls ==> CallShape(calls[k]))
    && (forall k :: k in calls && calls[k].ticket.Some? ==>
          calls[k].ticket.value.serial < serials
          && calls[k].ticket.value.msgId == IdOf(calls[k].ticket.value.serial))
    && (forall j, k | j in calls && k in calls && calls[j].ticket.Some? && calls[k].ticket.Some? ::
          calls[j].ticket.value.serial == calls[k].ticket.value.serial ==> j == k)
  }

  predicate HasId(c: Call, msgId: u32) {
    c.ticket.Some? && c.ticket.value.msgId == msgId
  }

  predicate Expects(calls: map<nat, Call>, c: nat, msgId: u32) {
    c in calls && HasId(calls[c], msgId) && calls[c].slot == Empty
  }

  /** The sender of call `c` is stored in `pending`, under the call's own id. */
  predicate InPending(calls: map<nat, Call>, pending: map<u32, PendingSend>, c: nat) {
    && c in calls && calls[c].ticket.Some?
    && calls[c].ticket.value.msgId in pending && pending[calls[c].ticket.value.msgId].call == c
  }

  predicate InHand(acks: map<nat, Ack>, a: nat, c: nat) {
    a in acks && acks[a].Held() == Some(c)
  }

  /** Everything in `pending` or in the hands of a handle_ack run is a live sender, under its own id and preimage. */
  ghost predicate Linked(calls: map<nat, Call>, pending: map<u32, PendingSend>, acks: map<nat, Ack>) {
    && (forall id :: id in pending ==>
          Expects(calls, pending[id].call, id) && calls[pending[id].call].preimage == pending[id].preimage)
    && (forall a, c :: InHand(acks, a, c) ==> Expects(calls, c, acks[a].msgId))
    && (forall a :: a in acks && acks[a].pc.Storing? ==>
          acks[a].pc.entry.call in calls && calls[acks[a].pc.entry.call].preimage == acks[a].pc.entry.preimage)
  }

  /** No sender is in two places, and every live sender is somewhere. */
  ghost predicate Exclusive(calls: map<nat, Call>, pending: map<u32, PendingSend>, acks: map<nat, Ack>) {
    && (forall a, b, c :: InHand(acks, a, c) && InHand(acks, b, c) ==> a == b)
    && (forall a, c :: InHand(acks, a, c) ==> !InPending(calls, pending, c))
    && (forall c :: c in calls && calls[c].slot == Empty ==>
          InPending(calls, pending, c) || exists a :: InHand(acks, a, c))
  }

  /** As long as no id was given out twice, only a call that failed to enqueue loses its sender. */
  ghost predicate NoneLost(calls: map<nat, Call>, serials: nat) {
    serials <= Wire.U32_SIZE ==>
      forall k :: k in calls && calls[k].slot == Dropped ==>
        calls[k].pc == Returned(Wire.SEND_ERR_DISCONNECTED, [])
  }

  ghost predicate Custody(calls: map<nat, Call>, pending: map<u32, PendingSend>, acks: map<nat, Ack>) {
    Linked(calls, pending, acks) && Exclusive(calls, pending, acks)
  }

  ghost predicate Inv(m: State) {
    && Tickets(m.calls, m.serials, m.tables.nextId)
    && Custody(m.calls, m.tables.pending, m.acks)
    && NoneLost(m.calls, m.serials)
  }

  // ---------------------------------------------------------------------------
  // What single changes do to the custody of senders
  // ---------------------------------------------------------------------------

  /** A call that keeps its channel, or has none yet, changes nothing. */
  lemma CustodyOfOthers(calls: map<nat, Call>, pending: map<u32, PendingSend>, acks: map<nat, Ack>, k: nat, call: Call)
    requires Custody(calls, pending, acks)
    requires k in calls ==> call.preimage == calls[k].preimage && call.slot == calls[k].slot
    requires k in calls && calls[k].slot == Empty ==> call.ticket == calls[k].ticket
    requires k !in calls ==> call.slot == NoChannel
    ensures Custody(calls[k := call], pending, acks)
  {
    var calls' := calls[k := call];
    assert forall c, id :: Expects(calls, c, id) <==> Expects(calls', c, id);
    assert forall c :: c in calls && calls[c].slot == Empty && InPending(calls, pending, c) ==> InPending(calls', pending, c);
    forall a, c | InHand(acks, a, c)
      ensures !InPending(calls', pending, c)
    {
      assert Expects(calls, c, acks[a].msgId);
    }
  }

  /** An entry that is destroyed takes its sender with it. */
  lemma CustodyDropped(calls: map<nat, Call>, pending: map<u32, PendingSend>, acks: map<nat, Ack>, id: u32)
    requires Custody(calls, pending, acks) && id in pending
    ensures var o := pending[id].call;
            o in calls && Custody(calls[o := calls[o].(slot := Dropped)], pending - {id}, acks)
  {
    var o := pending[id].call;
    assert Expects(calls, o, id) && InPending(calls, pending, o);
    var calls', pending' := calls[o := calls[o].(slot := Dropped)], pending - {id};
    assert forall c, i :: c != o ==> (Expects(calls, c, i) <==> Expects(calls', c, i));
    assert forall c :: c != o ==> (InPending(calls, pending, c) <==> InPending(calls', pending', c));
  }

  /** A fresh sender goes to `pending` under an id that has no entry. */
  lemma CustodyAdded(calls: map<nat, Call>, pending: map<u32, PendingSend>, acks: map<nat, Ack>, k: nat)
    requires Custody(calls, pending, acks)
    requires k in calls && calls[k].ticket.Some? && calls[k].slot == NoChannel
    requires calls[k].ticket.value.msgId !in pending
    ensures Custody(calls[k := calls[k].(slot := Empty, pc := Enqueuing)],
                    pending[calls[k].ticket.value.msgId := PendingSend(calls[k].preimage, k)], acks)
  {
    var id := calls[k].ticket.value.msgId;
    var calls' := calls[k := calls[k].(slot := Empty, pc := Enqueuing)];
    var pending' := pending[id := PendingSend(calls[k].preimage, k)];
    assert forall c, i :: c != k ==> (Expects(calls, c, i) <==> Expects(calls', c, i));
    assert forall c :: c != k ==> (InPending(calls, pending, c) <==> InPending(calls', pending', c));
    assert InPending(calls', pending', k);
  }

  /** handle_ack takes the sender out of `pending` into its hands. */
  lemma CustodyTaken(calls: map<nat, Call>, pending: map<u32, PendingSend>, acks: map<nat, Ack>, a: nat)
    requires Custody(calls, pending, acks) && a in acks && acks[a].pc.Taking? && acks[a].msgId in pending
    ensures var id := acks[a].msgId;
            Custody(calls, pending - {id}, acks[a := acks[a].(pc := Storing(pending[id]))])
  {
    var id := acks[a].msgId;
    var o := pending[id].call;
    var pending', acks' := pending - {id}, acks[a := acks[a].(pc := Storing(pending[id]))];
    assert InPending(calls, pending, o) && InHand(acks', a, o);
    assert forall b, c :: b != a ==> (InHand(acks, b, c) <==> InHand(acks', b, c));
    assert forall c :: c != o ==> (InPending(calls, pending, c) <==> InPending(calls, pending', c));
  }

  /** handle_ack moving on with the same sender, or starting or ending without one. */
  lemma CustodyOfAcks(calls: map<nat, Call>, pending: map<u32, PendingSend>, acks: map<nat, Ack>, a: nat, ack: Ack)
    requires Custody(calls, pending, acks) && !ack.pc.Storing?
    requires a in acks ==> ack.msgId == acks[a].msgId && ack.Held() == acks[a].Held()
    requires a !in acks ==> ack.Held() == None
    ensures Custody(calls, pending, acks[a := ack])
  {
    var acks' := acks[a := ack];
    assert forall b, c :: InHand(acks, b, c) <==> InHand(acks', b, c);
  }

  /** handle_ack completes the one-shot: the sender is used up. */
  lemma CustodyUsed(calls: map<nat, Call>, pending: map<u32, PendingSend>, acks: map<nat, Ack>, a: nat, response: Bytes)
    requires Custody(calls, pending, acks) && a in acks && acks[a].pc.Completing?
    ensures var o := acks[a].pc.call;
            o in calls && Custody(calls[o := calls[o].(slot := Full(response))], pending, acks[a := acks[a].(pc := Finished)])
  {
    var o := acks[a].pc.call;
    assert InHand(acks, a, o) && Expects(calls, o, acks[a].msgId);
    var calls', acks' := calls[o := calls[o].(slot := Full(response))], acks[a := acks[a].(pc := Finished)];
    assert forall b, c :: b != a ==> (InHand(acks, b, c) <==> InHand(acks', b, c));
    assert forall c, id :: c != o ==> (Expects(calls, c, id) <==> Expects(calls', c, id));
    assert forall c :: InPending(calls, pending, c) <==> InPending(calls', pending, c);
  }

  // ---------------------------------------------------------------------------
  // Every step keeps the invariant
  // ---------------------------------------------------------------------------

  /** One call changes; its shape is kept and its ticket, if it had one. */
  lemma TicketsKept(calls: map<nat, Call>, serials: nat, nextId: u32, k: nat, call: Call)
    requires Tickets(calls, serials, nextId) && CallShape(call)
    requires call.ticket == if k in calls then calls[k].ticket else None
    ensures Tickets(calls[k := call], serials, nextId)
  {
    hide IdOf, CallShape;
  }

  lemma TicketsGranted(calls: map<nat, Call>, serials: nat, nextId: u32, k: nat, call: Call)
    requires Tickets(calls, serials, nextId) && CallShape(call)
    requires call.ticket.Some? && call.ticket.value.serial == serials && call.ticket.value.msgId == nextId
    ensures Tickets(calls[k := call], serials + 1, NextId(nextId))
  {
    NextIdOf(serials);
    hide IdOf, CallShape, NextId;
  }

  lemma NextIdOf(serial: nat)
    ensures NextId(IdOf(serial)) == IdOf(serial + 1)
  {}

  lemma IdOfBelow(serial: nat)
    requires serial < Wire.U32_SIZE
    ensures IdOf(serial) == if serial == Wire.U32_SIZE - 1 then 0 else serial + 1
  {}

  /** Until the counter has gone round, an id names one call. */
  lemma UniqueIds(calls: map<nat, Call>, serials: nat, nextId: u32, j: nat, k: nat, id: u32)
    requires Tickets(calls, serials, nextId) && serials <= Wire.U32_SIZE
    requires j in calls && k in calls && HasId(calls[j], id) && HasId(calls[k], id)
    ensures j == k
  {
    IdOfBelow(calls[j].ticket.value.serial);
    IdOfBelow(calls[k].ticket.value.serial);
  }

  lemma ShapeOf(m: State, k: nat)
    requires Inv(m) && k in m.calls
    ensures CallShape(m.calls[k])
    ensures m.calls[k].slot == Dropped && m.serials <= Wire.U32_SIZE ==> m.calls[k].pc == Returned(Wire.SEND_ERR_DISCONNECTED, [])
  {}

  /** One call changes, and nothing of the custody of senders. */
  lemma CallStep(m: State, m': State, k: nat, call: Call)
    requires Inv(m) && m'.calls == m.calls[k := call]
    requires m'.acks == m.acks && m'.tables.pending == m.tables.pending
    requires m'.tables.nextId == m.tables.nextId && m'.serials == m.serials
    requires CallShape(call) && call.ticket == (if k in m.calls then m.calls[k].ticket else None)
    requires k in m.calls ==> call.preimage == m.calls[k].preimage && call.slot == m.calls[k].slot
    requires k !in m.calls ==> call.slot == NoChannel
    requires call.slot == Dropped && m.serials <= Wire.U32_SIZE ==> call.pc == Returned(Wire.SEND_ERR_DISCONNECTED, [])
    ensures Inv(m')
  {
    hide Custody, Tickets;
    CustodyOfOthers(m.calls, m.tables.pending, m.acks, k, call);
    TicketsKept(m.calls, m.serials, m.tables.nextId, k, call);
  }

  lemma NoneLostMore(calls: map<nat, Call>, serials: nat, k: nat, call: Call)
    requires NoneLost(calls, serials) && call.slot == NoChannel
    ensures NoneLost(calls[k := call], serials + 1)
  {}

  lemma AdmitCases(m: State, k: nat)
    requires k in m.calls && m.calls[k].pc == Admitting && CallShape(m.calls[k])
    ensures var m' := DoAdmit(m, k); var call := m'.calls[k];
            && m'.calls == m.calls[k := call] && m'.acks == m.acks && m'.tables.pending == m.tables.pending
            && CallShape(call) && call.preimage == m.calls[k].preimage && call.slot == NoChannel
            && if call.ticket.None? then m'.tables.nextId == m.tables.nextId && m'.serials == m.serials
               else && call.ticket.value.serial == m.serials && call.ticket.value.msgId == m.tables.nextId
                    && m'.tables.nextId == NextId(m.tables.nextId) && m'.serials == m.serials + 1
  {
    hide NextId;
  }

  lemma AdmitStep(m: State, k: nat)
    requires Inv(m) && k in m.calls && m.calls[k].pc == Admitting
    ensures Inv(DoAdmit(m, k))
  {
    ShapeOf(m, k);
    AdmitCases(m, k);
    hide Custody, Tickets, NextId, NoneLost, DoAdmit;
    var m' := DoAdmit(m, k);
    if m'.calls[k].ticket.None? {
      CallStep(m, m', k, m'.calls[k]);
    } else {
      CustodyOfOthers(m.calls, m.tables.pending, m.acks, k, m'.calls[k]);
      TicketsGranted(m.calls, m.serials, m.tables.nextId, k, m'.calls[k]);
      NoneLostMore(m.calls, m.serials, k, m'.calls[k]);
    }
  }

  /** What becomes of the call whose sender stood under this id. */
  lemma DropStep(m: State, msgId: u32)
    requires Inv(m)
    ensures var calls := m.DropSenderAt(msgId).calls;
            && Custody(calls, m.tables.pending - {msgId}, m.acks) && Tickets(calls, m.serials, m.tables.nextId)
            && calls.Keys == m.calls.Keys
            && (forall k :: k in calls ==>
                  || calls[k] == m.calls[k]
                  || (HasId(calls[k], msgId) && m.calls[k].slot == Empty && calls[k] == m.calls[k].(slot := Dropped)))
  {
    if msgId in m.tables.pending {
      var o := m.tables.pending[msgId].call;
      assert Expects(m.calls, o, msgId);
      hide Custody, Tickets, NoneLost;
      CustodyDropped(m.calls, m.tables.pending, m.acks, msgId);
      TicketsKept(m.calls, m.serials, m.tables.nextId, o, m.calls[o].(slot := Dropped));
    } else {
      assert m.tables.pending - {msgId} == m.tables.pending;
    }
  }

  /** The same, for a call whose own id it is. */
  lemma DropOwn(m: State, k: nat, id: u32)
    requires Inv(m) && k in m.calls
    ensures var calls := m.DropSenderAt(id).calls;
            && Custody(calls, m.tables.pending - {id}, m.acks) && Tickets(calls, m.serials, m.tables.nextId)
            && k in calls && calls[k].(slot := Empty) == m.calls[k].(slot := Empty)
            && (m.calls[k].slot != Empty ==> calls[k] == m.calls[k])
  {
    DropStep(m, id);
  }

  /** When call `k` clears its own id, nobody else loses a sender before the counter has gone round. */
  lemma OwnDrop(m: State, k: nat, id: u32, call: Call)
    requires Inv(m) && k in m.calls && HasId(m.calls[k], id)
    requires call.slot == Dropped ==> call.pc == Returned(Wire.SEND_ERR_DISCONNECTED, [])
    ensures NoneLost(m.DropSenderAt(id).calls[k := call], m.serials)
  {
    DropStep(m, id);
    if m.serials <= Wire.U32_SIZE {
      forall j | j in m.calls && HasId(m.calls[j], id) ensures j == k {
        UniqueIds(m.calls, m.serials, m.tables.nextId, j, k, id);
      }
    }
  }

  lemma InsertEffect(m: State, k: nat)
    requires k in m.calls && m.calls[k].ticket.Some?
    ensures var m', id := DoInsert(m, k), m.calls[k].ticket.value.msgId;
            && m'.calls == m.DropSenderAt(id).calls[k := m.calls[k].(slot := Empty, pc := Enqueuing)]
            && m'.tables.pending == (m.tables.pending - {id})[id := PendingSend(m.calls[k].preimage, k)]
            && m'.acks == m.acks && m'.serials == m.serials && m'.tables.nextId == m.tables.nextId
  {}

  lemma InsertStep(m: State, k: nat)
    requires Inv(m) && k in m.calls && m.calls[k].pc == Inserting && m.calls[k].ticket.Some?
    ensures Inv(DoInsert(m, k))
  {
    ShapeOf(m, k);
    hide Custody, Tickets, CallShape, NoneLost;
    var id := m.calls[k].ticket.value.msgId;
    DropOwn(m, k, id);
    var calls, pending := m.DropSenderAt(id).calls, m.tables.pending - {id};
    var call := calls[k].(slot := Empty, pc := Enqueuing);
    CustodyAdded(calls, pending, m.acks, k);
    QueuingShape(call);
    TicketsKept(calls, m.serials, m.tables.nextId, k, call);
    OwnDrop(m, k, id, call);
    InsertEffect(m, k);
    hide DoInsert;
  }

  lemma QueuingShape(c: Call)
    requires c.ticket.Some? && c.slot == Empty && c.pc == Enqueuing
    ensures CallShape(c)
  {}

  lemma RemoveStep(m: State, k: nat)
    requires Inv(m) && k in m.calls && m.calls[k].pc == Removing && m.calls[k].ticket.Some?
    ensures Inv(DoRemove(m, k))
  {
    ShapeOf(m, k);
    hide Custody, Tickets, NoneLost;
    var id := m.calls[k].ticket.value.msgId;
    DropOwn(m, k, id);
    var calls, call := m.DropSenderAt(id).calls, DoRemove(m, k).calls[k];
    RemovedShape(m, k, id);
    CustodyOfOthers(calls, m.tables.pending - {id}, m.acks, k, call);
    TicketsKept(calls, m.serials, m.tables.nextId, k, call);
    OwnDrop(m, k, id, call);
  }

  lemma RemovedShape(m: State, k: nat, id: u32)
    requires Inv(m) && k in m.calls && m.calls[k].pc == Removing
    ensures var calls := m.DropSenderAt(id).calls;
            k in calls && CallShape(calls[k].(pc := Returned(Wire.SEND_ERR_DISCONNECTED, [])))
  {}

  lemma AckStep(m: State, e: Event)
    requires Inv(m) && Enabled(m, e) && (e.AckArrive? || e.AckTake? || e.AckStore?)
    ensures Inv(Next(m, e))
  {
    hide Custody, Tickets;
    var a := e.ack;
    var m' := Next(m, e);
    if e.AckTake? && m.acks[a].msgId in m.tables.pending {
      CustodyTaken(m.calls, m.tables.pending, m.acks, a);
    } else {
      assert m'.tables.pending == m.tables.pending;
      CustodyOfAcks(m.calls, m.tables.pending, m.acks, a, m'.acks[a]);
    }
  }

  lemma CompleteStep(m: State, a: nat)
    requires Inv(m) && a in m.acks && m.acks[a].pc.Completing?
    ensures Inv(DoAckComplete(m, a))
  {
    var o := m.acks[a].pc.call;
    assert InHand(m.acks, a, o) && Expects(m.calls, o, m.acks[a].msgId);
    ShapeOf(m, o);
    hide Custody, Tickets;
    var m' := DoAckComplete(m, a);
    CustodyUsed(m.calls, m.tables.pending, m.acks, a, m.acks[a].response);
    TicketsKept(m.calls, m.serials, m.tables.nextId, o, m'.calls[o]);
  }

  lemma Step(m: State, e: Event)
    requires Inv(m) && Enabled(m, e)
    ensures Inv(Next(m, e))
  {
    hide Custody, Tickets, NoneLost;
    match e
    case Invoke(k, _, _, _) => CallStep(m, Next(m, e), k, Next(m, e).calls[k]);
    case Admit(k) => AdmitStep(m, k);
    case Insert(k) => InsertStep(m, k);
    case Remove(k) => RemoveStep(m, k);
    case Check(_) | Enqueue(_) | Receive(_) | SeeClosed(_) | TimeOut(_) =>
      ShapeOf(m, e.call);
      CallStep(m, Next(m, e), e.call, Next(m, e).calls[e.call]);
    case AckArrive(_, _, _, _) | AckTake(_) | AckStore(_) => AckStep(m, e);
    case AckComplete(a) => CompleteStep(m, a);
    case _ =>
  }

  lemma {:induction false} RunKeepsInv(ms: seq<State>, es: seq<Event>, i: nat)
    requires Run(ms, es) && i <= |es|
    ensures Inv(ms[i])
    decreases i
  {
    if i > 0 {
      RunKeepsInv(ms, es, i - 1);
      Step(ms[i - 1], es[i - 1]);
    }
  }

  lemma ReachableInv(m: State)
    requires Reachable(m)
    ensures Inv(m)
  {
    var ms, es :| Run(ms, es) && m == ms[|es|];
    RunKeepsInv(ms, es, |es|);
  }

  // ---------------------------------------------------------------------------
  // What follows for every reachable state
  // ---------------------------------------------------------------------------

  ghost function Handlers(m: State, c: nat): set<nat> {
    set a | a in m.acks && m.acks[a].Held() == Some(c)
  }

  /** In how many places the one-shot sender of call `c` is, counting "used or gone" as one. */
  ghost function Places(m: State, c: nat): nat
    requires c in m.calls
  {
    (if InPending(m.calls, m.tables.pending, c) then 1 else 0)
    + |Handlers(m, c)|
    + (if m.calls[c].slot.Full? || m.calls[c].slot.Dropped? then 1 else 0)
  }

  lemma ExactlyOnePlace(m: State, c: nat)
    requires Reachable(m) && c in m.calls && m.calls[c].slot != NoChannel
    ensures Places(m, c) == 1
  {
    ReachableInv(m);
    if a: nat :| InHand(m.acks, a, c) {
      assert Expects(m.calls, c, m.acks[a].msgId);
      assert forall b :: b in Handlers(m, c) ==> InHand(m.acks, b, c);
      assert Handlers(m, c) == {a};
    } else {
      assert forall b :: b in m.acks && m.acks[b].Held() == Some(c) ==> InHand(m.acks, b, c);
      assert Handlers(m, c) == {};
    }
    if InPending(m.calls, m.tables.pending, c) {
      assert Expects(m.calls, c, m.calls[c].ticket.value.msgId);
    }
  }

  /** A waiting call never finds its channel closed: the disconnected arm of the wait is dead. */
  lemma ClosedArmUnreachable(m: State, c: nat)
    requires Reachable(m) && m.serials <= Wire.U32_SIZE
    ensures !Enabled(m, SeeClosed(c))
  {
    ReachableInv(m);
  }

  lemma DropKeepsFull(m: State, msgId: u32, c: nat)
    requires c in m.calls && m.calls[c].slot.Full? && Inv(m)
    ensures var calls := m.DropSenderAt(msgId).calls; c in calls && calls[c] == m.calls[c]
  {
    hide Custody, Tickets, NoneLost;
    DropStep(m, msgId);
  }

  /** Of a call's answer, only its one-shot's sender and those that drop it decide. */
  lemma SlotFrame(m: State, e: Event, c: nat)
    requires Enabled(m, e) && c in m.calls && !e.Insert? && !e.Remove? && !e.AckComplete?
    ensures c in Next(m, e).calls && Next(m, e).calls[c].slot == m.calls[c].slot
  {
    hide DoInsert, DoRemove, DoAckTake, DoAckStore, DoAckComplete;
  }

  lemma FullKept(m: State, e: Event, c: nat)
    requires Enabled(m, e) && c in m.calls && m.calls[c].slot.Full? && Inv(m)
    ensures c in Next(m, e).calls && Next(m, e).calls[c].slot == m.calls[c].slot
  {
    if e.AckComplete? {
      assert InHand(m.acks, e.ack, m.acks[e.ack].pc.call);
      assert Expects(m.calls, m.acks[e.ack].pc.call, m.acks[e.ack].msgId);
      hide Inv;
    } else if e.Insert? || e.Remove? {
      ShapeOf(m, e.call);
      DropKeepsFull(m, m.calls[e.call].ticket.value.msgId, c);
      hide Inv, State.DropSenderAt;
    } else {
      SlotFrame(m, e, c);
      hide Next;
    }
  }

  /** A call is completed at most once: no later step changes what it was answered. */
  lemma CompletedOnce(m: State, e: Event, c: nat)
    requires Reachable(m) && Enabled(m, e) && c in m.calls && m.calls[c].slot.Full?
    ensures c in Next(m, e).calls && Next(m, e).calls[c].slot == m.calls[c].slot
  {
    ReachableInv(m);
    hide Inv, Next, Enabled;
    FullKept(m, e, c);
  }

  /** A second acknowledgement of an answered call finds nothing and changes nothing else. */
  lemma DuplicateAckIgnored(m: State, a: nat, c: nat)
    requires Reachable(m) && m.serials <= Wire.U32_SIZE
    requires Enabled(m, AckTake(a)) && c in m.calls && HasId(m.calls[c], m.acks[a].msgId)
    requires m.calls[c].slot != Empty || Handlers(m, c) != {}
    ensures Next(m, AckTake(a)) == m.WithAckPc(a, Finished)
  {
    ReachableInv(m);
    var id := m.acks[a].msgId;
    if id in m.tables.pending {
      var o := m.tables.pending[id].call;
      assert Expects(m.calls, o, id) && InPending(m.calls, m.tables.pending, o);
      UniqueIds(m.calls, m.serials, m.tables.nextId, o, c, id);
      var b :| b in Handlers(m, c);
      assert InHand(m.acks, b, c);
    }
    assert m.tables.pending - {id} == m.tables.pending;
  }

  /**
   * A call that timed out leaves its entry behind: if nobody has answered it, the first
   * acknowledgement to come still puts the response into the cache, under the call's preimage.
   */
  lemma LateAckFillsCache(m: State, a: nat, c: nat)
    requires Reachable(m) && m.serials <= Wire.U32_SIZE
    requires c in m.calls && m.calls[c].pc == Returned(Wire.SEND_ERR_TIMEOUT, [])
    requires m.calls[c].slot == Empty && Handlers(m, c) == {}
    requires a in m.acks && m.acks[a].pc == Taking && HasId(m.calls[c], m.acks[a].msgId)
    ensures var m1 := Next(m, AckTake(a));
            && Enabled(m1, AckStore(a))
            && var m2 := Next(m1, AckStore(a));
               && m.calls[c].preimage in m2.tables.cache
               && m2.tables.cache[m.calls[c].preimage] == CachedResponse(m.acks[a].response, m.now + CACHE_TTL)
  {
    ReachableInv(m);
    forall b ensures !InHand(m.acks, b, c) {
      assert b !in Handlers(m, c);
    }
    assert InPending(m.calls, m.tables.pending, c);
  }
}
