/**
 * A retry under any schedule: while the relay caches the response, a send that looks it up
 * before anybody else does brings the client up to date, whatever happens in between.
 */
module Retries {
  import opened Types
  import opened Router
  import opened System
  import opened Sync
  import opened Recovery
  import opened Nodes
  import Generations
  import History
  import Relay
  import Wire

  /** The preimage that the device consumed last. */
  function Last(w: World): Preimage
    requires w.past != []
  {
    w.past[|w.past| - 1]
  }

  /** This step looks up the cache entry of `p`. */
  predicate Looks(w: World, e: Event, p: Preimage) {
    e.RelayStep? && e.step.Check? && e.step.call in w.relay.calls && w.relay.calls[e.step.call].preimage == p
  }

  // ---------------------------------------------------------------------------
  // The cache entry meanwhile
  // ---------------------------------------------------------------------------

  predicate Timely(m: Relay.State) {
    forall p :: p in m.tables.cache ==> m.tables.cache[p].expiresAt <= m.now + CACHE_TTL
  }

  lemma TimelyStep(m: Relay.State, e: Relay.Event)
    requires Relay.Enabled(m, e) && Timely(m) && (e.Register? ==> e.recent == [])
    ensures Timely(Relay.Next(m, e))
  {
    match e
    case Register(_, _, _, _) =>
    case Check(_) =>
    case AckStore(_) =>
    case Cleanup =>
    case _ =>
      Relay.CacheFrame(m, e);
      Relay.ChannelsFrame(m, e);
      NowGrows(m, e);
      hide Relay.Next;
  }

  lemma NowGrows(m: Relay.State, e: Relay.Event)
    requires Relay.Enabled(m, e)
    ensures m.now <= Relay.Next(m, e).now
  {
    Relay.ChannelsFrame(m, e);
  }

  /** An entry that nobody looks up stays until it expires, or a later one takes its place. */
  lemma EntryStep(m: Relay.State, e: Relay.Event, p: Preimage)
    requires Relay.Enabled(m, e) && Timely(m) && (e.Register? ==> e.recent == [])
    requires p in m.tables.cache && m.tables.cache[p].expiresAt > m.now
    requires e.Check? ==> m.calls[e.call].preimage != p
    ensures p in Relay.Next(m, e).tables.cache
    ensures m.tables.cache[p].expiresAt <= Relay.Next(m, e).tables.cache[p].expiresAt
  {
    match e
    case Register(_, _, _, _) =>
    case Check(_) =>
    case AckStore(_) =>
    case Cleanup =>
    case _ =>
      Relay.CacheFrame(m, e);
      hide Relay.Next;
  }

  /** The relay's part of a step loads no responses, and looks into the cache only by a step of its own. */
  lemma RelayPart(json: Bytes -> bool, w: World, e: Event)
    requires Enabled(json, w, e) && RelayEvent(w, e).Some?
    ensures var step := RelayEvent(w, e).value;
            && (step.Register? ==> step.recent == [])
            && (step.Check? ==> e == RelayStep(step) && step.call in w.relay.calls)
  {
    hide History.Enabled;
  }

  lemma {:induction false} AlwaysTimely(json: Bytes -> bool, ws: seq<World>, es: seq<Event>, i: nat)
    requires Run(json, ws, es) && i <= |es|
    ensures Timely(ws[i].relay)
    decreases i
  {
    hide Next, Enabled;
    if i > 0 {
      AlwaysTimely(json, ws, es, i - 1);
      hide Init, Timely, RelayEvent;
      var w, e := ws[i - 1], es[i - 1];
      RelayAfter(json, w, e);
      if RelayEvent(w, e).Some? {
        RelayPart(json, w, e);
        TimelyStep(w.relay, RelayEvent(w, e).value);
      }
    }
  }

  lemma WorldEntryStep(json: Bytes -> bool, w: World, e: Event, p: Preimage)
    requires Enabled(json, w, e) && Timely(w.relay) && !Looks(w, e, p)
    requires p in w.relay.tables.cache && w.relay.tables.cache[p].expiresAt > w.relay.now
    ensures var w' := Next(json, w, e);
            && p in w'.relay.tables.cache && w.relay.tables.cache[p].expiresAt <= w'.relay.tables.cache[p].expiresAt
            && w.relay.now <= w'.relay.now
  {
    hide Timely, RelayEvent;
    RelayAfter(json, w, e);
    if RelayEvent(w, e).Some? {
      RelayPart(json, w, e);
      var step := RelayEvent(w, e).value;
      hide Next, Enabled, Relay.Next;
      EntryStep(w.relay, step, p);
      NowGrows(w.relay, step);
    }
  }

  lemma {:induction false} TimePasses(json: Bytes -> bool, ws: seq<World>, es: seq<Event>, i: nat, j: nat)
    requires Run(json, ws, es) && i <= j <= |es|
    ensures ws[i].relay.now <= ws[j].relay.now
    decreases j
  {
    hide Next, Enabled, Init;
    if i < j {
      TimePasses(json, ws, es, i, j - 1);
      hide RelayEvent;
      RelayAfter(json, ws[j - 1], es[j - 1]);
      if RelayEvent(ws[j - 1], es[j - 1]).Some? {
        NowGrows(ws[j - 1].relay, RelayEvent(ws[j - 1], es[j - 1]).value);
      }
    }
  }

  /** The cached response is still there, and fresh, if it has not expired and nobody has looked it up. */
  lemma {:induction false} StillCached(json: Bytes -> bool, ws: seq<World>, es: seq<Event>, i: nat, j: nat, p: Preimage)
    requires Run(json, ws, es) && i <= j <= |es|
    requires p in ws[i].relay.tables.cache && ws[j].relay.now < ws[i].relay.tables.cache[p].expiresAt
    requires forall t :: i <= t < j ==> !Looks(ws[t], es[t], p)
    ensures p in ws[j].relay.tables.cache
    ensures ws[i].relay.tables.cache[p].expiresAt <= ws[j].relay.tables.cache[p].expiresAt
    decreases j
  {
    hide Next, Enabled, Init, Looks, Timely;
    if i < j {
      TimePasses(json, ws, es, j - 1, j);
      StillCached(json, ws, es, i, j - 1, p);
      AlwaysTimely(json, ws, es, j - 1);
      WorldEntryStep(json, ws[j - 1], es[j - 1], p);
    }
  }

  // ---------------------------------------------------------------------------
  // The client meanwhile
  // ---------------------------------------------------------------------------

  /** A client that keeps waiting for its send learns nothing, and the device gets nothing to handle. */
  lemma AwaitStep(json: Bytes -> bool, w: World, e: Event, k: nat)
    requires Enabled(json, w, e) && w.waiting == Some(k) && Next(json, w, e).waiting == Some(k)
    requires Behind(w) && Inv(json, w)
    ensures var w' := Next(json, w, e);
            w'.client == w.client && w'.nodeId == w.nodeId && w'.past == w.past && w'.cur == w.cur
  {
    if e.Handle? {
      NotHandling(json, w, e);
    } else {
      hide Inv, Behind, Relay.Next, Relay.Enabled, DoProcess, History.Next, NewChannel;
    }
  }

  lemma SameBehind(w: World, w': World)
    requires w'.client == w.client && w'.nodeId == w.nodeId && w'.past == w.past && w'.cur == w.cur
    ensures Behind(w') <==> Behind(w)
  {}

  lemma {:induction false} StillWaiting(json: Bytes -> bool, ws: seq<World>, es: seq<Event>, i: nat, t: nat, k: nat)
    requires Run(json, ws, es) && i <= t <= |es| && Few(ws[t]) && Behind(ws[i])
    requires forall u :: i <= u <= t ==> ws[u].waiting == Some(k)
    ensures Few(ws[i])
    ensures Behind(ws[t]) && ws[t].past == ws[i].past && ws[t].cur == ws[i].cur && ws[t].Their() == ws[i].Their()
    decreases t
  {
    hide Next, Enabled, Init, Few, Inv;
    if i < t {
      Generations.StepBefore(json, ws, es, t);
      StillWaiting(json, ws, es, i, t - 1, k);
      AwaitStep(json, ws[t - 1], es[t - 1], k);
      SameBehind(ws[t - 1], ws[t]);
    }
  }

  /** A result that is on its way to the client stays on its way. */
  lemma {:induction false} ResultStays(json: Bytes -> bool, ws: seq<World>, es: seq<Event>, i: nat, j: nat, k: nat, r: Bytes)
    requires Run(json, ws, es) && i <= j <= |es|
    requires Relay.At(ws[i].relay, k, Relay.Returned(Wire.SEND_OK, r))
    ensures Relay.At(ws[j].relay, k, Relay.Returned(Wire.SEND_OK, r))
    decreases j
  {
    hide Next, Enabled, Init;
    if i < j {
      ResultStays(json, ws, es, i, j - 1, k, r);
      var w, e := ws[j - 1], es[j - 1];
      hide RelayEvent;
      RelayAfter(json, w, e);
      if RelayEvent(w, e).Some? {
        ReturnedStep(w.relay, RelayEvent(w, e).value, k, r);
      }
    }
  }

  lemma ReturnedStep(m: Relay.State, e: Relay.Event, k: nat, r: Bytes)
    requires Relay.Enabled(m, e) && Relay.At(m, k, Relay.Returned(Wire.SEND_OK, r))
    ensures Relay.At(Relay.Next(m, e), k, Relay.Returned(Wire.SEND_OK, r))
  {
    Relay.CallPersists(m, e, k);
    Relay.PcFrame(m, e);
    hide Relay.Next;
  }

  // ---------------------------------------------------------------------------
  // The retry
  // ---------------------------------------------------------------------------

  lemma HitNow(json: Bytes -> bool, w: World, k: nat)
    requires Enabled(json, w, RelayStep(Relay.Check(k)))
    requires var p := w.relay.calls[k].preimage;
             p in w.relay.tables.cache && w.relay.tables.cache[p].expiresAt > w.relay.now
    ensures Relay.At(Next(json, w, RelayStep(Relay.Check(k))).relay, k,
                     Relay.Returned(Wire.SEND_OK, w.relay.tables.cache[w.relay.calls[k].preimage].response))
  {}

  lemma AwaitedPreimage(json: Bytes -> bool, w: World, k: nat)
    requires Inv(json, w) && w.waiting == Some(k) && k in w.relay.calls
    ensures w.Their() == Some(w.relay.calls[k].preimage)
  {}

  /** What the client makes of the result of a send that it made while it was behind. */
  lemma ResultTaken(json: Bytes -> bool, w: World, k: nat, now: nat, r: Bytes)
    requires Enabled(json, w, ClientResult(now)) && w.waiting == Some(k)
    requires Relay.At(w.relay, k, Relay.Returned(Wire.SEND_OK, r))
    requires Parser(json) && Behind(w) && Few(w) && Inv(json, w)
    ensures var w' := Next(json, w, ClientResult(now));
            && w'.cur == w.cur && w'.past == w.past
            && (w'.Their() == Some(w'.cur) <==> !AllSpace(w'.cur.bytes))
  {
    hide Next, Enabled, Parser, Carries, Learned, AllSpace, Relayed, Issued, View, Sends, Ups, Arrived, Inbound, Few;
    Generations.NextOf(json, w, ClientResult(now));
    var a := Generations.ResultLearned(json, w, r);
    LearnedExactly(json, r, w.cur);
    CurNew(json, w);
    ResultExactly(json, w, w.cur, now);
  }

  /** The relay looks up the retry's preimage and finds the response. */
  lemma RetryHits(json: Bytes -> bool, ws: seq<World>, es: seq<Event>, i: nat, j: nat, k: nat, p: Preimage)
    requires Run(json, ws, es) && i < j < |es| && Few(ws[j]) && es[j] == RelayStep(Relay.Check(k))
    requires p in ws[i].relay.tables.cache && ws[j].relay.now < ws[i].relay.tables.cache[p].expiresAt
    requires forall t :: i <= t < j ==> !Looks(ws[t], es[t], p)
    requires ws[j].waiting == Some(k) && ws[j].Their() == Some(p)
    ensures p in ws[j].relay.tables.cache
    ensures Relay.At(ws[j + 1].relay, k, Relay.Returned(Wire.SEND_OK, ws[j].relay.tables.cache[p].response))
  {
    hide Init, Next, Few, Inv, Looks, World.Their;
    StillCached(json, ws, es, i, j, p);
    Generations.RunKeepsInv(json, ws, es, j);
    assert k in ws[j].relay.calls;
    hide Enabled;
    AwaitedPreimage(json, ws[j], k);
    HitNow(json, ws[j], k);
  }

  /**
   * A client that is behind sends again while the relay caches the response. Whatever else goes on, if
   * the relay looks the response up for this send before it expires and before anybody else does, and the
   * client waits for the result, then the result brings it up to date, exactly when the
   * device's live preimage is not all white space.
   */
  lemma RetryCatchesUp(json: Bytes -> bool, ws: seq<World>, es: seq<Event>, i: nat, j: nat, l: nat, k: nat)
    requires Run(json, ws, es) && i < j < l < |es| && Few(ws[l]) && Parser(json)
    requires es[i].ClientSend? && es[i].call == k && es[j] == RelayStep(Relay.Check(k)) && es[l].ClientResult?
    requires Behind(ws[i]) && InCache(ws[i])
    requires ws[j].relay.now < ws[i].relay.tables.cache[Last(ws[i])].expiresAt
    requires forall t :: i < t < j ==> !Looks(ws[t], es[t], Last(ws[i]))
    requires forall t :: i < t <= l ==> ws[t].waiting == Some(k)
    ensures var w' := ws[l + 1];
            && w'.cur == ws[i].cur && w'.past == ws[i].past
            && (w'.Their() == Some(w'.cur) <==> !AllSpace(w'.cur.bytes))
  {
    var p := Last(ws[i]);
    Sent(json, ws[i], es[i]);
    assert !Looks(ws[i], es[i], p);
    assert p in ws[i].relay.tables.cache && ws[i].Their() == Some(p);
    hide Init, Next, Enabled, Few, Inv, Parser, AllSpace, InCache, Looks, World.Their;
    SameBehind(ws[i], ws[i + 1]);
    StillWaiting(json, ws, es, i + 1, l, k);
    FewEarlier(json, ws, es, j, l);
    StillWaiting(json, ws, es, i + 1, j, k);
    RetryHits(json, ws, es, i, j, k, p);
    Generations.RunKeepsInv(json, ws, es, l);
    var r := ws[j].relay.tables.cache[p].response;
    ResultStays(json, ws, es, j + 1, l, k, r);
    ResultTaken(json, ws[l], k, es[l].now, r);
  }

  lemma Sent(json: Bytes -> bool, w: World, e: Event)
    requires e.ClientSend? && Enabled(json, w, e)
    ensures var w' := Next(json, w, e);
            w'.client == w.client && w'.nodeId == w.nodeId && w'.past == w.past && w'.cur == w.cur
  {}

  lemma {:induction false} FewEarlier(json: Bytes -> bool, ws: seq<World>, es: seq<Event>, i: nat, j: nat)
    requires Run(json, ws, es) && i <= j <= |es| && Few(ws[j])
    ensures Few(ws[i])
    decreases j
  {
    hide Next, Enabled, Init, Few, Inv;
    if i < j {
      Generations.FewBefore(json, ws[j - 1], es[j - 1]);
      FewEarlier(json, ws, es, i, j - 1);
    }
  }
}
