/**
 * Where responses come from: whatever a send gets back as a success, fresh or cached, was
 * given for an id allocated to a send with the same preimage, or loaded for that preimage.
 */
module Provenance {
  import opened Types
  import opened Router
  import opened Relay
  import Rendezvous
  import Wire

  /** handle_ack run `a` is about the id that was allocated to call `c`. */
  predicate About(m: State, a: nat, c: nat) {
    a in m.acks && c in m.calls && Rendezvous.HasId(m.calls[c], m.acks[a].msgId)
  }

  ghost predicate Answered(m: State, c: nat, response: Bytes) {
    exists a :: About(m, a, c) && m.acks[a].response == response
  }

  /** `response` belongs to `preimage`: acknowledged for one of its sends, or loaded for it. */
  ghost predicate Belongs(m: State, preimage: Preimage, response: Bytes) {
    || (preimage, response) in m.loaded
    || exists c :: c in m.calls && m.calls[c].preimage == preimage && Answered(m, c, response)
  }

  ghost predicate CacheBelongs(m: State) {
    forall p :: p in m.tables.cache ==> Belongs(m, p, m.tables.cache[p].response)
  }

  ghost predicate SlotsBelong(m: State) {
    forall c :: c in m.calls && m.calls[c].slot.Full? ==> Answered(m, c, m.calls[c].slot.response)
  }

  ghost predicate ResultsBelong(m: State) {
    forall c :: c in m.calls && m.calls[c].pc.Returned? && m.calls[c].pc.status == Wire.SEND_OK ==>
      Belongs(m, m.calls[c].preimage, m.calls[c].pc.payload)
  }

  ghost predicate Inv(m: State) {
    CacheBelongs(m) && SlotsBelong(m) && ResultsBelong(m)
  }

  lemma AnsweredKept(m: State, e: Event, c: nat, response: Bytes)
    requires Rendezvous.Inv(m) && Enabled(m, e) && Answered(m, c, response)
    ensures Answered(Next(m, e), c, response)
  {
    var a :| About(m, a, c) && m.acks[a].response == response;
    Rendezvous.ShapeOf(m, c);
    CallPersists(m, e, c);
    AcksPersist(m, e);
    hide Next;
    assert About(Next(m, e), a, c);
  }

  lemma BelongsKept(m: State, e: Event, preimage: Preimage, response: Bytes)
    requires Rendezvous.Inv(m) && Enabled(m, e) && Belongs(m, preimage, response)
    ensures Belongs(Next(m, e), preimage, response)
  {
    if (preimage, response) in m.loaded {
      ChannelsFrame(m, e);
    } else {
      var c :| c in m.calls && m.calls[c].preimage == preimage && Answered(m, c, response);
      AnsweredKept(m, e, c, response);
      CallPersists(m, e, c);
      hide Next;
    }
  }

  lemma {:induction false} LoadedFrom(cache: map<Preimage, CachedResponse>, recent: Recent, expiresAt: nat, p: Preimage)
    requires p in Load(cache, recent, expiresAt)
    ensures var entry := Load(cache, recent, expiresAt)[p];
            (p in cache && entry == cache[p]) || (p, entry.response) in recent
    decreases |recent|
  {
    if recent != [] {
      LoadedFrom(cache[recent[0].0 := CachedResponse(recent[0].1, expiresAt)], recent[1..], expiresAt, p);
    }
  }

  /** A cache entry after a step was there before, was loaded by it, or was stored by it. */
  lemma CacheSources(m: State, e: Event, p: Preimage)
    requires Enabled(m, e) && p in Next(m, e).tables.cache
    ensures var r := Next(m, e).tables.cache[p].response;
            || (p in m.tables.cache && m.tables.cache[p].response == r)
            || (e.Register? && (p, r) in Next(m, e).loaded)
            || (e.AckStore? && m.acks[e.ack].pc.entry.preimage == p && m.acks[e.ack].response == r)
  {
    match e
    case Register(_, _, recent, _) => LoadedFrom(m.tables.cache, recent, m.now + CACHE_TTL, p);
    case Check(_) | AckStore(_) | Cleanup =>
    case _ => CacheFrame(m, e);
  }

  lemma CacheStep(m: State, e: Event)
    requires Rendezvous.Inv(m) && CacheBelongs(m) && Enabled(m, e)
    ensures CacheBelongs(Next(m, e))
  {
    var m' := Next(m, e);
    forall p | p in m'.tables.cache
      ensures Belongs(m', p, m'.tables.cache[p].response)
    {
      CacheSources(m, e, p);
      if e.AckStore? && m.acks[e.ack].pc.entry.preimage == p && m.acks[e.ack].response == m'.tables.cache[p].response {
        var c := m.acks[e.ack].pc.entry.call;
        assert Rendezvous.InHand(m.acks, e.ack, c);
        assert Rendezvous.Expects(m.calls, c, m.acks[e.ack].msgId);
        assert About(m, e.ack, c);
        assert Answered(m, c, m.acks[e.ack].response);
        BelongsKept(m, e, p, m'.tables.cache[p].response);
      } else if p in m.tables.cache && m.tables.cache[p].response == m'.tables.cache[p].response {
        BelongsKept(m, e, p, m'.tables.cache[p].response);
      }
    }
  }

  /** A one-shot is filled only by handle_ack, with its own response. */
  lemma SlotSources(m: State, e: Event, c: nat)
    requires Enabled(m, e) && c in Next(m, e).calls && Next(m, e).calls[c].slot.Full?
    ensures c in m.calls
    ensures || m.calls[c].slot == Next(m, e).calls[c].slot
            || (e.AckComplete? && m.acks[e.ack].pc.call == c && Next(m, e).calls[c].slot.response == m.acks[e.ack].response)
  {}

  lemma SlotsStep(m: State, e: Event)
    requires Rendezvous.Inv(m) && SlotsBelong(m) && Enabled(m, e)
    ensures SlotsBelong(Next(m, e))
  {
    var m' := Next(m, e);
    forall c | c in m'.calls && m'.calls[c].slot.Full?
      ensures Answered(m', c, m'.calls[c].slot.response)
    {
      SlotSources(m, e, c);
      if e.AckComplete? && m.acks[e.ack].pc.call == c {
        assert Rendezvous.InHand(m.acks, e.ack, c);
        assert Rendezvous.Expects(m.calls, c, m.acks[e.ack].msgId);
        assert About(m, e.ack, c);
      }
      hide Next;
      AnsweredKept(m, e, c, m'.calls[c].slot.response);
    }
  }

  /** A success comes from the cache or from the call's own one-shot. */
  lemma ResultSources(m: State, e: Event, c: nat, r: Bytes)
    requires Enabled(m, e) && c in Next(m, e).calls && Next(m, e).calls[c].pc == Returned(Wire.SEND_OK, r)
    ensures c in m.calls && m.calls[c].preimage == Next(m, e).calls[c].preimage
    ensures || m.calls[c].pc == Returned(Wire.SEND_OK, r)
            || (m.calls[c].preimage in m.tables.cache && m.tables.cache[m.calls[c].preimage].response == r)
            || m.calls[c].slot == Full(r)
  {
    match e
    case Check(_) | Receive(_) | AckComplete(_) | Admit(_) =>
    case Insert(_) | Remove(_) | Enqueue(_) =>
    case _ =>
      hide DoCheck, DoAdmit, DoInsert, DoEnqueue, DoRemove, DoAckTake, DoAckStore, DoAckComplete;
  }

  lemma ResultsStep(m: State, e: Event)
    requires Rendezvous.Inv(m) && Inv(m) && Enabled(m, e)
    ensures ResultsBelong(Next(m, e))
  {
    var m' := Next(m, e);
    forall c | c in m'.calls && m'.calls[c].pc.Returned? && m'.calls[c].pc.status == Wire.SEND_OK
      ensures Belongs(m', m'.calls[c].preimage, m'.calls[c].pc.payload)
    {
      var r := m'.calls[c].pc.payload;
      ResultSources(m, e, c, r);
      hide Next;
      assert Belongs(m, m.calls[c].preimage, r);
      BelongsKept(m, e, m.calls[c].preimage, r);
    }
  }

  lemma {:induction false} RunKeepsInv(ms: seq<State>, es: seq<Event>, i: nat)
    requires Run(ms, es) && i <= |es|
    ensures Inv(ms[i])
    decreases i
  {
    if i > 0 {
      RunKeepsInv(ms, es, i - 1);
      Rendezvous.RunKeepsInv(ms, es, i - 1);
      CacheStep(ms[i - 1], es[i - 1]);
      SlotsStep(ms[i - 1], es[i - 1]);
      ResultsStep(ms[i - 1], es[i - 1]);
    }
  }

  /** No response is ever returned under another preimage than its own. */
  lemma SuccessBelongs(m: State, c: nat)
    requires Reachable(m) && c in m.calls && m.calls[c].pc.Returned? && m.calls[c].pc.status == Wire.SEND_OK
    ensures Belongs(m, m.calls[c].preimage, m.calls[c].pc.payload)
  {
    var ms, es :| Run(ms, es) && m == ms[|es|];
    RunKeepsInv(ms, es, |es|);
  }

  /** `response` was given to a send with `preimage` by the session whose channel took the send's message. */
  ghost predicate FromDevice(m: State, preimage: Preimage, response: Bytes) {
    exists a, c :: About(m, a, c) && ByDevice(m, a, c) && m.calls[c].preimage == preimage && m.acks[a].response == response
  }

  predicate ByDevice(m: State, a: nat, c: nat)
    requires About(m, a, c)
  {
    m.acks[a].session == m.calls[c].ticket.value.channel
  }

  /**
   * A success comes from the device that the preimage's message went to, fresh or cached, provided
   * that no other session acknowledges such messages, and no session loads responses to them.
   */
  lemma SuccessFromDevice(m: State, c: nat)
    requires Reachable(m) && c in m.calls && m.calls[c].pc.Returned? && m.calls[c].pc.status == Wire.SEND_OK
    requires forall r :: (m.calls[c].preimage, r) !in m.loaded
    requires forall a, d :: About(m, a, d) && m.calls[d].preimage == m.calls[c].preimage ==> ByDevice(m, a, d)
    ensures FromDevice(m, m.calls[c].preimage, m.calls[c].pc.payload)
  {
    SuccessBelongs(m, c);
    var d :| d in m.calls && m.calls[d].preimage == m.calls[c].preimage && Answered(m, d, m.calls[c].pc.payload);
    var a :| About(m, a, d) && m.acks[a].response == m.calls[c].pc.payload;
    assert ByDevice(m, a, d);
  }
}
