/**
 * The response cache: retrying with the same preimage is idempotent, and expired entries,
 * and with them every call of cleanup_cache, are unobservable.
 */
module ResponseCache {
  import opened Types
  import opened Router
  import opened Relay
  import Wire

  // ---------------------------------------------------------------------------
  // Idempotent retry
  // ---------------------------------------------------------------------------

  /** This step looks up, stores or loads the cache entry of preimage `p`. */
  predicate Touches(m: State, e: Event, p: Preimage)
    requires Enabled(m, e)
  {
    match e
    case Check(k) => m.calls[k].preimage == p
    case AckStore(a) => m.acks[a].pc.entry.preimage == p
    case Register(_, _, recent, _) => exists r :: r in recent && r.0 == p
    case _ => false
  }

  lemma {:induction false} LoadOther(cache: map<Preimage, CachedResponse>, recent: Recent, expiresAt: nat, p: Preimage)
    requires forall r :: r in recent ==> r.0 != p
    ensures p in Load(cache, recent, expiresAt) <==> p in cache
    ensures p in cache ==> Load(cache, recent, expiresAt)[p] == cache[p]
    decreases |recent|
  {
    if recent != [] {
      LoadOther(cache[recent[0].0 := CachedResponse(recent[0].1, expiresAt)], recent[1..], expiresAt, p);
    }
  }

  /** Nothing else removes or changes an entry that has not expired. */
  lemma EntryStays(m: State, e: Event, p: Preimage)
    requires Enabled(m, e) && !Touches(m, e, p)
    requires p in m.tables.cache && m.now < m.tables.cache[p].expiresAt
    ensures p in Next(m, e).tables.cache && Next(m, e).tables.cache[p] == m.tables.cache[p]
  {
    match e
    case Register(_, _, recent, _) => LoadOther(m.tables.cache, recent, m.now + CACHE_TTL, p);
    case Check(_) | AckStore(_) | Cleanup =>
    case _ => CacheFrame(m, e);
  }

  lemma ClockStep(m: State, e: Event)
    requires Enabled(m, e)
    ensures m.now <= Next(m, e).now
  {
    ChannelsFrame(m, e);
  }

  lemma {:induction false} EntryStaysInRun(ms: seq<State>, es: seq<Event>, i: nat, j: nat, p: Preimage,
                                           entry: CachedResponse)
    requires Run(ms, es) && i <= j <= |es|
    requires forall t :: i <= t < j ==> !Touches(ms[t], es[t], p)
    requires p in ms[i].tables.cache && ms[i].tables.cache[p] == entry && ms[j].now < entry.expiresAt
    ensures p in ms[j].tables.cache && ms[j].tables.cache[p] == entry
    decreases j
  {
    hide Enabled, Next, Touches;
    if i < j {
      ClockStep(ms[j - 1], es[j - 1]);
      EntryStaysInRun(ms, es, i, j - 1, p, entry);
      EntryStays(ms[j - 1], es[j - 1], p);
    }
  }

  /** An entry that has expired by then is at most still there. */
  lemma {:induction false} NoOtherEntry(ms: seq<State>, es: seq<Event>, i: nat, j: nat, p: Preimage, entry: CachedResponse)
    requires Run(ms, es) && i <= j <= |es|
    requires forall t :: i <= t < j ==> !Touches(ms[t], es[t], p)
    requires p in ms[i].tables.cache && ms[i].tables.cache[p] == entry
    ensures p in ms[j].tables.cache ==> ms[j].tables.cache[p] == entry
    decreases j
  {
    hide Enabled, Next, Touches;
    if i < j {
      NoOtherEntry(ms, es, i, j - 1, p, entry);
      NoNewEntry(ms[j - 1], es[j - 1], p);
    }
  }

  lemma NoNewEntry(m: State, e: Event, p: Preimage)
    requires Enabled(m, e) && !Touches(m, e, p)
    ensures p in Next(m, e).tables.cache ==> p in m.tables.cache && Next(m, e).tables.cache[p] == m.tables.cache[p]
  {
    match e
    case Register(_, _, recent, _) => LoadOther(m.tables.cache, recent, m.now + CACHE_TTL, p);
    case Check(_) | AckStore(_) | Cleanup =>
    case _ => CacheFrame(m, e);
  }

  /**
   * Once an acknowledgement has put a response into the cache, the next send with the same
   * preimage that looks within five minutes returns that very response, and touches neither
   * devices and commits, nor pending sends, nor the id counter. After five minutes it has to be admitted.
   */
  lemma IdempotentRetry(ms: seq<State>, es: seq<Event>, i: nat, j: nat, a: nat, k: nat)
    requires Run(ms, es) && i < j < |es|
    requires es[i] == AckStore(a) && es[j] == Check(k)
    requires var p := ms[i].acks[a].pc.entry.preimage;
             && ms[j].calls[k].preimage == p
             && (forall t :: i < t < j ==> !Touches(ms[t], es[t], p))
    ensures ms[j + 1].calls[k].pc ==
            if ms[j].now < ms[i].now + 5 * 60 * 1_000_000_000 then Returned(0, ms[i].acks[a].response) else Admitting
    ensures ms[j + 1].tables == ms[j].tables.(cache := ms[j].tables.cache - {ms[j].calls[k].preimage})
    ensures ms[j + 1].serials == ms[j].serials && ms[j + 1].queues == ms[j].queues
  {
    var p := ms[i].acks[a].pc.entry.preimage;
    var entry := CachedResponse(ms[i].acks[a].response, ms[i].now + CACHE_TTL);
    assert ms[i + 1] == Next(ms[i], es[i]);
    if ms[j].now < ms[i].now + CACHE_TTL {
      EntryStaysInRun(ms, es, i + 1, j, p, entry);
    } else {
      NoOtherEntry(ms, es, i + 1, j, p, entry);
    }
    assert ms[j + 1] == Next(ms[j], es[j]);
  }

  // ---------------------------------------------------------------------------
  // Cleanup is unobservable
  // ---------------------------------------------------------------------------

  /** A cleanup keeps exactly what a look at that moment would return. */
  lemma CleanupExactly(t: Tables, now: nat, p: Preimage)
    ensures var t' := t.Cleanup(now);
            && t' == t.(cache := t'.cache) && (p in t'.cache <==> t.TakeCached(p, now).1.Some?)
            && (p in t'.cache ==> t'.cache[p] == t.cache[p] && t.TakeCached(p, now).1 == Some(t.cache[p].response))
  {}

  predicate Fresh(cache: map<Preimage, CachedResponse>, now: nat, p: Preimage) {
    p in cache && cache[p].expiresAt > now
  }

  ghost predicate SameFresh(c1: map<Preimage, CachedResponse>, c2: map<Preimage, CachedResponse>, now: nat) {
    forall p :: (Fresh(c1, now, p) <==> Fresh(c2, now, p)) && (Fresh(c1, now, p) ==> c1[p] == c2[p])
  }

  /** Equal in everything but expired cache entries. */
  ghost predicate Alike(m1: State, m2: State) {
    && m2 == m1.(tables := m1.tables.(cache := m2.tables.cache))
    && SameFresh(m1.tables.cache, m2.tables.cache, m1.now)
  }

  lemma {:induction false} LoadSameFresh(c1: map<Preimage, CachedResponse>, c2: map<Preimage, CachedResponse>,
                                         recent: Recent, now: nat)
    requires SameFresh(c1, c2, now)
    ensures SameFresh(Load(c1, recent, now + CACHE_TTL), Load(c2, recent, now + CACHE_TTL), now)
    decreases |recent|
  {
    if recent != [] {
      var entry := CachedResponse(recent[0].1, now + CACHE_TTL);
      LoadSameFresh(c1[recent[0].0 := entry], c2[recent[0].0 := entry], recent[1..], now);
    }
  }

  function WithCache(m: State, cache: map<Preimage, CachedResponse>): State {
    m.(tables := m.tables.(cache := cache))
  }

  lemma AdmitBlind(m: State, cache: map<Preimage, CachedResponse>, k: nat)
    requires k in m.calls
    ensures DoAdmit(WithCache(m, cache), k) == WithCache(DoAdmit(m, k), cache)
  {
    TablesBlind(m.tables, cache, m.calls[k].to, Sha256(m.calls[k].preimage), m.closed);
    hide Tables.Admit;
  }

  lemma TablesBlind(t: Tables, cache: map<Preimage, CachedResponse>, to: Id, commit: Commit, closed: set<nat>)
    ensures t.(cache := cache).Admit(to, commit, closed).0 == t.Admit(to, commit, closed).0.(cache := cache)
    ensures t.(cache := cache).Admit(to, commit, closed).1 == t.Admit(to, commit, closed).1
  {}

  lemma PendingBlind(m: State, cache: map<Preimage, CachedResponse>, k: nat)
    requires k in m.calls && m.calls[k].ticket.Some?
    ensures DoInsert(WithCache(m, cache), k) == WithCache(DoInsert(m, k), cache)
    ensures DoRemove(WithCache(m, cache), k) == WithCache(DoRemove(m, k), cache)
  {
    DropBlind(m, cache, m.calls[k].ticket.value.msgId);
  }

  /** Every other step neither reads nor changes the cache. */
  lemma CacheBlind(m: State, cache: map<Preimage, CachedResponse>, e: Event)
    requires Enabled(m, e) && !e.Register? && !e.Check? && !e.AckStore? && !e.Cleanup?
    ensures Enabled(WithCache(m, cache), e)
    ensures Next(WithCache(m, cache), e) == WithCache(Next(m, e), cache)
  {
    hide DoAdmit, DoInsert, DoRemove;
    match e
    case Admit(k) => AdmitBlind(m, cache, k);
    case Insert(_) | Remove(_) => PendingBlind(m, cache, e.call);
    case Enqueue(_) | Receive(_) | SeeClosed(_) | TimeOut(_) | Invoke(_, _, _, _) =>
    case AckArrive(_, _, _, _) | AckTake(_) | AckComplete(_) =>
    case _ =>
  }

  lemma DropBlind(m: State, cache: map<Preimage, CachedResponse>, msgId: u32)
    ensures WithCache(m, cache).DropSenderAt(msgId) == WithCache(m.DropSenderAt(msgId), cache)
  {}

  /** Whatever one of two alike relays can do, the other can, and they stay alike. */
  lemma AlikeStep(m1: State, m2: State, e: Event)
    requires Alike(m1, m2) && Enabled(m1, e)
    ensures Enabled(m2, e) && Alike(Next(m1, e), Next(m2, e))
  {
    hide DoCheck, DoAdmit, DoInsert, DoEnqueue, DoRemove, DoAckTake, DoAckStore, DoAckComplete;
    match e
    case Register(_, _, recent, _) => LoadSameFresh(m1.tables.cache, m2.tables.cache, recent, m1.now);
    case Check(k) => AlikeCheck(m1, m2, k);
    case Cleanup => AlikeCleanup(m1, m2);
    case AckStore(a) => AlikeStore(m1, m2, a);
    case _ => AlikeElse(m1, m2, e);
  }

  lemma AlikeElse(m1: State, m2: State, e: Event)
    requires Alike(m1, m2) && Enabled(m1, e)
    requires !e.Register? && !e.Check? && !e.AckStore? && !e.Cleanup?
    ensures Enabled(m2, e) && Alike(Next(m1, e), Next(m2, e))
  {
    hide Next, Enabled;
    CacheBlind(m1, m2.tables.cache, e);
    CacheFrame(m1, e);
    ClockStep(m1, e);
  }

  lemma AlikeCheck(m1: State, m2: State, k: nat)
    requires Alike(m1, m2) && k in m1.calls
    ensures Alike(DoCheck(m1, k), DoCheck(m2, k))
  {
    var p := m1.calls[k].preimage;
    assert Fresh(m1.tables.cache, m1.now, p) <==> Fresh(m2.tables.cache, m1.now, p);
  }

  lemma AlikeStore(m1: State, m2: State, a: nat)
    requires Alike(m1, m2) && a in m1.acks && m1.acks[a].pc.Storing?
    ensures Alike(DoAckStore(m1, a), DoAckStore(m2, a))
  {}

  lemma AlikeCleanup(m1: State, m2: State)
    requires Alike(m1, m2)
    ensures Alike(m1.(tables := m1.tables.Cleanup(m1.now)), m2.(tables := m2.tables.Cleanup(m2.now)))
    ensures Alike(m1.(tables := m1.tables.Cleanup(m1.now)), m2)
  {
    forall p
      ensures Fresh(m1.tables.Cleanup(m1.now).cache, m1.now, p) <==> Fresh(m1.tables.cache, m1.now, p)
      ensures Fresh(m2.tables.Cleanup(m1.now).cache, m1.now, p) <==> Fresh(m2.tables.cache, m1.now, p)
    {}
  }

  function WithoutCleanup(es: seq<Event>): seq<Event> {
    if es == [] then []
    else (if es[0].Cleanup? then [] else [es[0]]) + WithoutCleanup(es[1..])
  }

  /**
   * Cleanups inserted anywhere into a run, or left out of it, change neither what is possible
   * nor any call, result, delivery or pending send.
   */
  lemma {:induction false} CleanupUnobservable(m1: State, m2: State, es: seq<Event>)
    requires Alike(m1, m2)
    ensures CanDo(m1, es) <==> CanDo(m2, WithoutCleanup(es))
    ensures CanDo(m1, es) ==> Alike(After(m1, es), After(m2, WithoutCleanup(es)))
    decreases |es|
  {
    if es != [] {
      var e, rest := es[0], WithoutCleanup(es[1..]);
      if e.Cleanup? {
        AlikeCleanup(m1, m2);
        CleanupUnobservable(Next(m1, e), m2, es[1..]);
        assert WithoutCleanup(es) == rest;
      } else {
        assert WithoutCleanup(es)[0] == e && WithoutCleanup(es)[1..] == rest;
        assert Alike(m2, m1);
        if Enabled(m1, e) {
          AlikeStep(m1, m2, e);
          CleanupUnobservable(Next(m1, e), Next(m2, e), es[1..]);
        } else if Enabled(m2, e) {
          AlikeStep(m2, m1, e);
        }
      }
    }
  }
}
