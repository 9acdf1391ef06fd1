/**
 * What the relay's own steps do to sends on their way to a device and to responses on their
 * way back, as long as no message id has been given out twice.
 */
module Replies {
  import opened Types
  import opened Router
  import opened Relay
  import opened Rendezvous
  import Provenance
  import Wire

  /** The id was given to a send with this preimage. */
  ghost predicate Named(m: State, msgId: u32, p: Preimage) {
    exists c :: c in m.calls && HasId(m.calls[c], msgId) && m.calls[c].preimage == p
  }

  /** An acknowledgement of this id will be stored under this preimage. */
  ghost predicate Answerable(m: State, msgId: u32, p: Preimage) {
    && msgId in m.tables.pending && m.tables.pending[msgId].preimage == p
    && forall c :: c in m.calls && HasId(m.calls[c], msgId) ==> m.calls[c].pc.Waiting? || m.calls[c].pc.Returned?
  }

  ghost predicate Unwrapped(m: State) {
    Rendezvous.Inv(m) && m.serials <= Wire.U32_SIZE
  }

  lemma SerialsGrow(m: State, e: Event)
    requires Enabled(m, e)
    ensures m.serials <= Next(m, e).serials
  {
    ChannelsFrame(m, e);
  }

  lemma NamedOnce(m: State, msgId: u32, p: Preimage, q: Preimage)
    requires Unwrapped(m) && Named(m, msgId, p) && Named(m, msgId, q)
    ensures p == q
  {
    var c :| c in m.calls && HasId(m.calls[c], msgId) && m.calls[c].preimage == p;
    var d :| d in m.calls && HasId(m.calls[d], msgId) && m.calls[d].preimage == q;
    UniqueIds(m.calls, m.serials, m.tables.nextId, c, d, msgId);
  }

  lemma AnswerableNamed(m: State, msgId: u32, p: Preimage)
    requires Rendezvous.Inv(m) && Answerable(m, msgId, p)
    ensures Named(m, msgId, p)
  {
    var c := m.tables.pending[msgId].call;
    assert Expects(m.calls, c, msgId);
    assert c in m.calls && HasId(m.calls[c], msgId);
  }

  lemma NamedKept(m: State, e: Event, msgId: u32, p: Preimage)
    requires Rendezvous.Inv(m) && Enabled(m, e) && Named(m, msgId, p)
    ensures Named(Next(m, e), msgId, p)
  {
    var c :| c in m.calls && HasId(m.calls[c], msgId) && m.calls[c].preimage == p;
    ShapeOf(m, c);
    CallPersists(m, e, c);
    hide Next;
    assert HasId(Next(m, e).calls[c], msgId);
  }

  /** No id that a call already has is given out once more. */
  lemma IdsStay(m: State, e: Event, o: nat, c: nat, msgId: u32)
    requires Unwrapped(m) && Enabled(m, e) && Unwrapped(Next(m, e))
    requires o in m.calls && HasId(m.calls[o], msgId)
    requires c in Next(m, e).calls && HasId(Next(m, e).calls[c], msgId)
    ensures c == o
  {
    ShapeOf(m, o);
    CallPersists(m, e, o);
    hide Next;
    UniqueIds(Next(m, e).calls, Next(m, e).serials, Next(m, e).tables.nextId, o, c, msgId);
  }

  lemma AnswerableKept(m: State, e: Event, msgId: u32, p: Preimage)
    requires Unwrapped(m) && Enabled(m, e) && Unwrapped(Next(m, e)) && Answerable(m, msgId, p)
    requires e.AckTake? ==> m.acks[e.ack].msgId != msgId
    ensures Answerable(Next(m, e), msgId, p)
  {
    PendingElsewhere(m, e, msgId, p);
    var o := m.tables.pending[msgId].call;
    assert Expects(m.calls, o, msgId);
    hide Next, Unwrapped;
    forall c | c in Next(m, e).calls && HasId(Next(m, e).calls[c], msgId)
      ensures Next(m, e).calls[c].pc.Waiting? || Next(m, e).calls[c].pc.Returned?
    {
      IdsStay(m, e, o, c, msgId);
      PcFrame(m, e);
    }
  }

  /** The entry of an id whose call waits is touched by acknowledgements only. */
  lemma PendingElsewhere(m: State, e: Event, msgId: u32, p: Preimage)
    requires Enabled(m, e) && Answerable(m, msgId, p)
    requires e.AckTake? ==> m.acks[e.ack].msgId != msgId
    ensures msgId in Next(m, e).tables.pending && Next(m, e).tables.pending[msgId] == m.tables.pending[msgId]
  {
    if e.Insert? || e.Remove? {
      assert !HasId(m.calls[e.call], msgId);
    } else if !e.AckTake? {
      PendingFrame(m, e);
      hide Next;
    }
  }

  // ---------------------------------------------------------------------------
  // Sends on their way to one device, by one channel
  // ---------------------------------------------------------------------------

  /** This call was admitted to the channel, and has not put its message in it yet. */
  predicate Bound(m: State, k: nat, s: nat) {
    && k in m.calls && m.calls[k].ticket.Some? && m.calls[k].ticket.value.channel == s
    && (m.calls[k].pc.Inserting? || m.calls[k].pc.Enqueuing?)
  }

  /** At most one message is on its way, with the preimage `cur`; `down` is what left the channel already. */
  ghost predicate OneAtMost(m: State, s: nat, down: seq<Delivery>, cur: Preimage) {
    && |m.Queue(s)| + |down| <= 1
    && (forall d :: d in m.Queue(s) || d in down ==> d.preimage == cur && Answerable(m, d.msgId, cur))
    && (forall k :: Bound(m, k, s) ==> m.calls[k].preimage == cur && m.Queue(s) == [] && down == [])
    && (forall j, k :: Bound(m, j, s) && Bound(m, k, s) ==> j == k)
  }

  ghost predicate Busy(m: State, s: nat, down: seq<Delivery>) {
    m.Queue(s) != [] || down != [] || exists k :: Bound(m, k, s)
  }

  /** The device's entry leads to channel `s`. */
  predicate Leads(m: State, id: Id, s: nat) {
    id in m.tables.devices && m.tables.devices[id].channel == s
  }

  /** By channel `s`, none of `past` is admitted, and `cur` not while a message is on its way. */
  ghost predicate Spent(m: State, id: Id, s: nat, down: seq<Delivery>, past: seq<Preimage>, cur: Preimage) {
    Leads(m, id, s) ==>
      && (forall p :: p in past ==> Sha256(p) !in m.tables.devices[id].commits)
      && (Sha256(cur) in m.tables.devices[id].commits ==> !Busy(m, s, down))
  }

  /** All calls are sends to device `id` with preimages it issued. */
  ghost predicate AllTo(m: State, id: Id, past: seq<Preimage>, cur: Preimage) {
    forall k :: k in m.calls ==> m.calls[k].to == id && (m.calls[k].preimage in past || m.calls[k].preimage == cur)
  }

  /** No acknowledgement of a send with this preimage has arrived. */
  ghost predicate Unacked(m: State, p: Preimage) {
    forall a, c :: Provenance.About(m, a, c) ==> m.calls[c].preimage != p
  }

  lemma BoundBefore(m: State, e: Event, k: nat, s: nat)
    requires Rendezvous.Inv(m) && Enabled(m, e) && Bound(Next(m, e), k, s) && e != Admit(k)
    ensures Bound(m, k, s) && Next(m, e).calls[k].preimage == m.calls[k].preimage
    ensures e != Enqueue(k)
  {
    Arrivals(m, e);
    if k !in m.calls {
      NotBoundAtFirst(m, e, k, s);
    } else {
      hide Rendezvous.Inv;
      CallPersists(m, e, k);
      PcFrame(m, e);
      if e.Insert? || e.Enqueue? {
        BoundByOwnStep(m, e, k, s);
      }
      hide Next;
    }
  }

  lemma NotBoundAtFirst(m: State, e: Event, k: nat, s: nat)
    requires Enabled(m, e) && k !in m.calls
    ensures !Bound(Next(m, e), k, s)
  {
    Arrivals(m, e);
    if !e.Invoke? {
      hide Next;
    }
  }

  lemma BoundByOwnStep(m: State, e: Event, k: nat, s: nat)
    requires Enabled(m, e) && (e.Insert? || e.Enqueue?) && k in m.calls && Bound(Next(m, e), k, s)
    ensures Bound(m, k, s) && e != Enqueue(k)
  {}

  lemma BusyBefore(m: State, e: Event, s: nat, down: seq<Delivery>)
    requires Rendezvous.Inv(m) && Enabled(m, e) && Next(m, e).Queue(s) == m.Queue(s) && Busy(Next(m, e), s, down)
    requires e.Admit? ==> !Bound(Next(m, e), e.call, s)
    ensures Busy(m, s, down)
  {
    hide Next;
    if k :| Bound(Next(m, e), k, s) {
      BoundBefore(m, e, k, s);
    }
  }

  /** As long as the channel is left alone, so are the sends on their way by it. */
  lemma OneAtMostKept(m: State, e: Event, s: nat, down: seq<Delivery>, cur: Preimage)
    requires Unwrapped(m) && Enabled(m, e) && Unwrapped(Next(m, e))
    requires OneAtMost(m, s, down, cur) && Unacked(m, cur)
    requires Next(m, e).Queue(s) == m.Queue(s) && (e.Admit? ==> !Bound(Next(m, e), e.call, s))
    ensures OneAtMost(Next(m, e), s, down, cur)
  {
    var m' := Next(m, e);
    hide Next, Unwrapped;
    forall d | d in m.Queue(s) || d in down
      ensures Answerable(m', d.msgId, cur)
    {
      AnswerableAndUnacked(m, e, d.msgId, cur);
    }
    forall k | Bound(m', k, s)
      ensures Bound(m, k, s) && m'.calls[k].preimage == m.calls[k].preimage
    {
      BoundBefore(m, e, k, s);
    }
  }

  lemma NoAckOf(m: State, msgId: u32, p: Preimage)
    requires Rendezvous.Inv(m) && Answerable(m, msgId, p) && Unacked(m, p)
    ensures forall a :: a in m.acks ==> m.acks[a].msgId != msgId
  {
    var c := m.tables.pending[msgId].call;
    assert Expects(m.calls, c, msgId);
    forall a | a in m.acks
      ensures m.acks[a].msgId != msgId
    {
      assert Provenance.About(m, a, c) <==> HasId(m.calls[c], m.acks[a].msgId);
    }
  }

  lemma AnswerableAndUnacked(m: State, e: Event, msgId: u32, p: Preimage)
    requires Unwrapped(m) && Enabled(m, e) && Unwrapped(Next(m, e)) && Answerable(m, msgId, p) && Unacked(m, p)
    ensures Answerable(Next(m, e), msgId, p)
  {
    NoAckOf(m, msgId, p);
    AnswerableKept(m, e, msgId, p);
  }

  lemma SpentKept(m: State, e: Event, id: Id, s: nat, down: seq<Delivery>, past: seq<Preimage>, cur: Preimage)
    requires Rendezvous.Inv(m) && Enabled(m, e) && Spent(m, id, s, down, past, cur)
    requires Next(m, e).Queue(s) == m.Queue(s)
    requires !e.Admit? && !e.Register? && !e.AddCommits? && !e.Unregister?
    ensures Spent(Next(m, e), id, s, down, past, cur)
  {
    DevicesFrame(m, e);
    hide Next;
    if Busy(Next(m, e), s, down) {
      BusyBefore(m, e, s, down);
    }
  }

  /** What an admission does, for a send that is known to be to device `id` under `past` or `cur`. */
  lemma AdmitEffect(m: State, k: nat, id: Id, s: nat)
    requires k in m.calls && m.calls[k].pc == Admitting && m.calls[k].to == id
    ensures var m', c := DoAdmit(m, k), Sha256(m.calls[k].preimage);
            && m'.queues == m.queues && m'.calls[k].preimage == m.calls[k].preimage
            && (Leads(m', id, s) ==> Leads(m, id, s))
            && if Bound(m', k, s) then
                 && Leads(m, id, s) && Leads(m', id, s) && c in m.tables.devices[id].commits
                 && m'.tables.devices[id].commits == m.tables.devices[id].commits - {c}
               else Leads(m', id, s) ==> m'.tables.devices[id].commits <= m.tables.devices[id].commits
  {}

  lemma AdmitInbound(m: State, k: nat, id: Id, s: nat, down: seq<Delivery>, past: seq<Preimage>, cur: Preimage)
    requires Unwrapped(m) && Enabled(m, Admit(k)) && Unwrapped(Next(m, Admit(k)))
    requires OneAtMost(m, s, down, cur) && Unacked(m, cur)
    requires Spent(m, id, s, down, past, cur) && AllTo(m, id, past, cur)
    ensures OneAtMost(DoAdmit(m, k), s, down, cur) && Spent(DoAdmit(m, k), id, s, down, past, cur)
  {
    var m' := DoAdmit(m, k);
    AdmitEffect(m, k, id, s);
    hide DoAdmit, Unwrapped;
    if Bound(m', k, s) {
      assert m.calls[k].preimage == cur && !Busy(m, s, down);
      forall j | Bound(m', j, s) ensures j == k {
        if j != k {
          BoundBefore(m, Admit(k), j, s);
        }
      }
    } else {
      OneAtMostKept(m, Admit(k), s, down, cur);
      if Busy(m', s, down) {
        BusyBefore(m, Admit(k), s, down);
      }
    }
  }

  /** A send that nobody has acknowledged has its sender stored in `pending`. */
  lemma EnqueuingAnswerable(m: State, k: nat)
    requires Unwrapped(m) && Provenance.SlotsBelong(m) && k in m.calls && m.calls[k].pc == Enqueuing
    requires Unacked(m, m.calls[k].preimage)
    ensures m.calls[k].ticket.Some?
    ensures var msgId := m.calls[k].ticket.value.msgId;
            && msgId in m.tables.pending && m.tables.pending[msgId].preimage == m.calls[k].preimage
            && forall c :: c in m.calls && HasId(m.calls[c], msgId) ==> c == k
  {
    ShapeOf(m, k);
    var msgId := m.calls[k].ticket.value.msgId;
    assert !m.calls[k].slot.Full?;
    forall a ensures !InHand(m.acks, a, k) {
      if InHand(m.acks, a, k) {
        assert Expects(m.calls, k, m.acks[a].msgId);
        assert Provenance.About(m, a, k);
      }
    }
    assert InPending(m.calls, m.tables.pending, k);
    assert Expects(m.calls, k, msgId);
    forall c | c in m.calls && HasId(m.calls[c], msgId) ensures c == k {
      UniqueIds(m.calls, m.serials, m.tables.nextId, c, k, msgId);
    }
  }

  lemma EnqueueEffect(m: State, k: nat, s: nat)
    requires Enabled(m, Enqueue(k))
    ensures var m', call := DoEnqueue(m, k), m.calls[k];
            && m'.tables == m.tables
            && m'.calls.Keys == m.calls.Keys
            && (forall c :: c in m.calls && c != k ==> m'.calls[c] == m.calls[c])
            && m'.calls[k].ticket == call.ticket && !Bound(m', k, s)
            && if Bound(m, k, s) && s !in m.closed then
                 m'.Queue(s) == m.Queue(s) + [Delivery(call.ticket.value.msgId, call.preimage, call.payload)]
                 && m'.calls[k].pc == Waiting
               else m'.Queue(s) == m.Queue(s)
  {}

  /** The message leaves its call for the channel: still one message. */
  lemma EnqueueMoves(m: State, m': State, k: nat, s: nat, down: seq<Delivery>, cur: Preimage)
    requires OneAtMost(m, s, down, cur) && Bound(m, k, s)
    requires m'.tables == m.tables && m'.calls.Keys == m.calls.Keys && m'.calls[k].pc == Waiting
    requires forall c :: c in m.calls && c != k ==> m'.calls[c] == m.calls[c]
    requires var msgId := m.calls[k].ticket.value.msgId;
             && msgId in m.tables.pending && m.tables.pending[msgId].preimage == m.calls[k].preimage
             && (forall c :: c in m.calls && HasId(m.calls[c], msgId) ==> c == k)
             && m'.calls[k].ticket == m.calls[k].ticket
             && m'.Queue(s) == m.Queue(s) + [Delivery(msgId, m.calls[k].preimage, m.calls[k].payload)]
    ensures OneAtMost(m', s, down, cur) && Busy(m, s, down)
  {
    forall j ensures !Bound(m', j, s) {
      assert j != k && Bound(m', j, s) ==> Bound(m, j, s);
    }
    assert Answerable(m', m.calls[k].ticket.value.msgId, cur);
  }

  lemma EnqueueInbound(m: State, k: nat, s: nat, down: seq<Delivery>, cur: Preimage)
    requires Unwrapped(m) && Provenance.SlotsBelong(m) && Enabled(m, Enqueue(k)) && Unwrapped(Next(m, Enqueue(k)))
    requires OneAtMost(m, s, down, cur) && Unacked(m, cur)
    ensures OneAtMost(DoEnqueue(m, k), s, down, cur)
    ensures Busy(DoEnqueue(m, k), s, down) ==> Busy(m, s, down)
  {
    EnqueueEffect(m, k, s);
    hide DoEnqueue;
    if Bound(m, k, s) && s !in m.closed {
      EnqueuingAnswerable(m, k);
      hide OneAtMost, Rendezvous.Inv, Busy;
      EnqueueMoves(m, DoEnqueue(m, k), k, s, down, cur);
    } else {
      hide OneAtMost, Busy;
      OneAtMostKept(m, Enqueue(k), s, down, cur);
      if Busy(DoEnqueue(m, k), s, down) {
        BusyBefore(m, Enqueue(k), s, down);
      }
    }
  }

  /** No step of the relay itself changes that at most one message is on its way, under `cur`. */
  lemma InboundKept(m: State, e: Event, id: Id, s: nat, down: seq<Delivery>, past: seq<Preimage>, cur: Preimage)
    requires Unwrapped(m) && Provenance.SlotsBelong(m) && Enabled(m, e) && Unwrapped(Next(m, e))
    requires !e.Register? && !e.AddCommits? && !e.Unregister? && !e.Dequeue? && !e.Close?
    requires OneAtMost(m, s, down, cur) && Unacked(m, cur)
    requires Spent(m, id, s, down, past, cur) && AllTo(m, id, past, cur)
    ensures OneAtMost(Next(m, e), s, down, cur) && Spent(Next(m, e), id, s, down, past, cur)
  {
    if e.Admit? {
      AdmitInbound(m, e.call, id, s, down, past, cur);
    } else if e.Enqueue? {
      EnqueueInbound(m, e.call, s, down, cur);
      DevicesFrame(m, e);
    } else {
      ChannelsFrame(m, e);
      hide Next;
      OneAtMostKept(m, e, s, down, cur);
      SpentKept(m, e, id, s, down, past, cur);
    }
  }

  /** Only calls, pending sends and the channel matter. */
  lemma SameTraffic(m: State, m': State, s: nat, down: seq<Delivery>, cur: Preimage)
    requires m'.calls == m.calls && m'.tables.pending == m.tables.pending && m'.Queue(s) == m.Queue(s)
    ensures OneAtMost(m, s, down, cur) ==> OneAtMost(m', s, down, cur)
    ensures Busy(m', s, down) ==> Busy(m, s, down)
  {
    assert forall k :: Bound(m', k, s) <==> Bound(m, k, s);
    assert forall msgId :: Answerable(m, msgId, cur) ==> Answerable(m', msgId, cur);
    if Busy(m', s, down) {
      if k :| Bound(m', k, s) {
        assert Bound(m, k, s);
      }
    }
  }

  /** The message on its way, if any, is now elsewhere between channel and device, or lost. */
  lemma TrafficMoved(m: State, m': State, s: nat, down: seq<Delivery>, down': seq<Delivery>, cur: Preimage)
    requires m'.calls == m.calls && m'.tables.pending == m.tables.pending
    requires down' + m'.Queue(s) == down + m.Queue(s) || (m'.Queue(s) == [] && down' == down)
    ensures OneAtMost(m, s, down, cur) ==> OneAtMost(m', s, down', cur)
    ensures Busy(m', s, down') ==> Busy(m, s, down)
  {
    assert forall k :: Bound(m', k, s) <==> Bound(m, k, s);
    assert forall msgId :: Answerable(m, msgId, cur) ==> Answerable(m', msgId, cur);
    assert forall d :: d in m'.Queue(s) || d in down' ==> d in down' + m'.Queue(s);
    assert forall d :: d in down + m.Queue(s) ==> d in m.Queue(s) || d in down;
    if Busy(m', s, down') {
      if k :| Bound(m', k, s) {
        assert Bound(m, k, s);
      }
    }
  }

  /** The device lists `cur`, while no message is on its way. */
  lemma AddInbound(m: State, m': State, id: Id, s: nat, down: seq<Delivery>, past: seq<Preimage>, cur: Preimage)
    requires m'.tables == m.tables.AddCommits(id, [Sha256(cur)]) && m'.calls == m.calls && m'.queues == m.queues
    requires OneAtMost(m, s, down, cur) && Spent(m, id, s, down, past, cur)
    requires !Busy(m, s, down) && cur !in past
    ensures OneAtMost(m', s, down, cur) && Spent(m', id, s, down, past, cur)
    ensures Leads(m', id, s) ==> Leads(m, id, s)
  {
    SameTraffic(m, m', s, down, cur);
    hide OneAtMost, Busy;
  }

  /** The device's entry is made anew: by channel `t`, which may be `s`. */
  lemma RegisterInbound(m: State, m': State, id: Id, commits: seq<Commit>, t: nat, s: nat, down: seq<Delivery>,
                        past: seq<Preimage>, cur: Preimage)
    requires m'.tables == m.tables.Register(id, commits, [], t, m.now) && m'.calls == m.calls && m'.queues == m.queues
    requires OneAtMost(m, s, down, cur)
    requires t == s ==> !Busy(m, s, down) && forall p :: p in past ==> Sha256(p) !in commits
    ensures OneAtMost(m', s, down, cur) && Spent(m', id, s, down, past, cur)
  {
    SameTraffic(m, m', s, down, cur);
    hide OneAtMost, Busy;
  }
}
