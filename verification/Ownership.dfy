/**
 * Capabilities are owned and single-use: every live preimage of a node belongs to exactly one
 * invite, started pairing or peer, and no preimage ever authorises two commands.
 */
module Ownership {
  import opened Types
  import opened Wire
  import opened Device
  import opened Nodes
  import opened History

  // ---------------------------------------------------------------------------
  // Transitions of the records
  // ---------------------------------------------------------------------------

  lemma HeldPut<K(!new)>(source: map<K, seq<Preimage>>, k: K, p: Preimage)
    requires OneEach(source) && p !in Held(source)
    ensures OneEach(source[k := [p]])
    ensures Held(source[k := [p]]) == Held(source) + {p} - if k in source then {source[k][0]} else {}
  {
    var after := source[k := [p]];
    forall j | j in source
      ensures p !in source[j]
    {
      assert p in source[j] ==> p in Held(source);
    }
    forall q | q in Held(source) && (k in source ==> q != source[k][0])
      ensures q in Held(after)
    {
      var j :| j in source && q in source[j];
      assert q in after[j];
    }
    assert p in after[k];
  }

  lemma HeldTaken<K(!new)>(source: map<K, seq<Preimage>>, k: K)
    requires OneEach(source) && k in source
    ensures OneEach(source - {k}) && source[k][0] in Held(source)
    ensures Held(source - {k}) == Held(source) - {source[k][0]}
  {
    assert source[k][0] in source[k];
    forall q | q in Held(source) && q != source[k][0]
      ensures q in Held(source - {k})
    {
      var j :| j in source && q in source[j];
      assert q in (source - {k})[j];
    }
  }

  lemma {:induction false} HeldSize<K(!new)>(source: map<K, seq<Preimage>>)
    requires OneEach(source)
    ensures |Held(source)| == |source|
    decreases |source|
  {
    if source == map[] {
      assert Held(source) == {};
    } else {
      var k :| k in source;
      HeldTaken(source, k);
      assert |source - {k}| == |source| - 1 by {
        assert (source - {k}).Keys == source.Keys - {k};
      }
      HeldSize(source - {k});
    }
  }

  lemma CreateInviteOwned(r: Records, alias: string, role: PeerRole, random: Preimage, now: nat)
    requires r.Owned() && random !in r.Live()
    ensures var r' := r.CreateInvite(alias, role, random, now);
            r'.Owned() && r'.Live() <= r.Live() + {random}
  {
    hide OneEach, Held;
    HeldPut(r.ByInvite(), random, random);
    var r' := r.CreateInvite(alias, role, random, now);
    assert r'.ByInvite() == r.ByInvite()[random := [random]];
    assert r'.ByPending() == r.ByPending() && r'.ByPeer() == r.ByPeer();
  }

  lemma AcceptInviteOwned(r: Records, id: Id, p: Preimage, alias: string, random: Preimage, now: nat)
    requires r.Owned() && random !in r.Live()
    ensures var r' := r.AcceptInvite(id, p, alias, random, now);
            r'.Owned() && r'.Live() <= r.Live() + {random}
  {
    hide OneEach, Held;
    HeldPut(r.ByPending(), id, random);
    var r' := r.AcceptInvite(id, p, alias, random, now);
    assert r'.ByPending() == r.ByPending()[id := [random]];
    assert r'.ByInvite() == r.ByInvite() && r'.ByPeer() == r.ByPeer();
  }

  lemma PeerAdded(r: Records, id: Id, peer: PeerRecord, random: Preimage)
    requires r.Owned() && random !in r.Live() && peer.issued == [random]
    ensures var r' := r.(peers := r.peers[id := peer]);
            r'.Owned() && r'.Live() <= r.Live() + {random}
            && (id in r.peers ==> r.peers[id].issued != [] && r.peers[id].issued[0] !in r'.Live())
  {
    var r' := r.(peers := r.peers[id := peer]);
    if id in r.peers {
      assert |r.ByPeer()[id]| == 1;
      HeldTaken(r.ByPeer(), id);
    }
    hide OneEach, Held;
    HeldPut(r.ByPeer(), id, random);
    assert r'.ByPeer() == r.ByPeer()[id := [random]];
    assert r'.ByInvite() == r.ByInvite() && r'.ByPending() == r.ByPending();
  }

  lemma DeleteInviteOwned(r: Records, p: Preimage)
    requires r.Owned()
    ensures r.DeleteInvite(p).Owned() && r.DeleteInvite(p).Live() <= r.Live()
    ensures p in r.invites ==> p in r.Live() && p !in r.DeleteInvite(p).Live()
  {
    hide OneEach, Held;
    var r' := r.DeleteInvite(p);
    assert r'.ByPending() == r.ByPending() && r'.ByPeer() == r.ByPeer();
    assert r'.ByInvite() == r.ByInvite() - {p};
    if p in r.invites {
      HeldTaken(r.ByInvite(), p);
    } else {
      assert r.ByInvite() - {p} == r.ByInvite();
    }
  }

  lemma PendingRemoved(r: Records, id: Id)
    requires r.Owned() && id in r.pending
    ensures var r' := r.(pending := r.pending - {id});
            && r'.Owned() && r'.Live() <= r.Live()
            && r.pending[id].myPreimage in r.Live() && r.pending[id].myPreimage !in r'.Live()
  {
    hide OneEach, Held;
    var r' := r.(pending := r.pending - {id});
    HeldTaken(r.ByPending(), id);
    assert r'.ByPending() == r.ByPending() - {id};
    assert r'.ByInvite() == r.ByInvite() && r'.ByPeer() == r.ByPeer();
  }

  lemma UpdateOwned(r: Records, id: Id, p: Preimage, now: nat)
    requires r.Owned()
    ensures r.UpdatePeerPreimage(id, p, now).Owned() && r.UpdatePeerPreimage(id, p, now).Live() == r.Live()
  {
    var r' := r.UpdatePeerPreimage(id, p, now);
    assert r'.ByInvite() == r.ByInvite() && r'.ByPending() == r.ByPending() && r'.ByPeer() == r.ByPeer();
  }

  /** What a peer was issued is live, and it was issued nothing else. */
  lemma IssuedIsLive(r: Records, id: Id, p: Preimage)
    requires r.Owned() && id in r.peers && p in r.peers[id].issued
    ensures r.peers[id].issued == [p] && p in r.Live()
  {
    assert p in r.ByPeer()[id] && |r.ByPeer()[id]| == 1;
  }

  /** A peer's only issued preimage is the one that is consumed; the renewal takes its place. */
  lemma RenewOwned(r: Records, id: Id, used: Preimage, random: Preimage, now: nat)
    requires r.Owned() && random !in r.Live()
    requires id in r.peers && used in r.peers[id].issued
    ensures var r' := r.ConsumeAndRenew(id, used, random, now).value;
            && r'.Owned() && r'.Live() <= r.Live() + {random} && used in r.Live() && used !in r'.Live()
            && r'.peers[id].issued == [random]
  {
    var peer := r.peers[id];
    IssuedIsLive(r, id, used);
    assert Without(peer.issued, used) + [random] == [random];
    PeerAdded(r, id, peer.(issued := [random], lastContacted := now), random);
  }

  // ---------------------------------------------------------------------------
  // The whole life of a node
  // ---------------------------------------------------------------------------

  ghost predicate Inv(m: Machine) {
    && m.records.Owned()
    && m.records.Live() <= m.drawn && m.consumed <= m.drawn
    && m.records.Live() !! m.consumed
  }

  lemma HandshakeStep(m: Machine, p: Preimage, init: HandshakeInit, random: Preimage, now: nat)
    requires Inv(m) && random !in m.drawn
    ensures Inv(DoHandshake(m, p, init, random, now))
  {
    if p in m.records.invites {
      var r := m.records.DeleteInvite(p);
      DeleteInviteOwned(m.records, p);
      var invite := m.records.invites[p];
      var peer := PeerRecord(invite.alias, invite.role, Some(init.relayUrl), now, [random],
                             Some(Preimage(init.preimageForPeer)));
      hide Records.Owned, Records.Live;
      PeerAdded(r, Id(init.senderId), peer, random);
    }
  }

  lemma EndPairStep(m: Machine, id: Id, p: Preimage, relay: Option<Text>, now: nat)
    requires Inv(m)
    ensures Inv(DoEndPair(m, id, p, relay, now))
  {
    if id in m.records.pending {
      var mine := m.records.pending[id].myPreimage;
      var r := m.records.(pending := m.records.pending - {id});
      PendingRemoved(m.records, id);
      hide Records.Owned, Records.Live;
      var peer := PeerRecord(m.records.pending[id].alias, Reader, relay, now, [mine], Some(p));
      PeerAdded(r, id, peer, mine);
    }
  }

  /** Dispatching touches invites only, and draws at most one preimage. */
  lemma DispatchOwned(r: Records, role: PeerRole, req: Request, pick: Option<Preimage>, random: Preimage, now: nat)
    requires r.Owned() && random !in r.Live()
    ensures var r' := Dispatch(r, role, req, pick, random, now).0;
            && r'.Owned() && r'.peers == r.peers
            && r'.Live() <= r.Live() + (if role == Owner && req.InviteCreate? then {random} else {})
  {
    match req
    case InviteCreate(alias, newRole) => CreateInviteOwned(r, alias, newRole, random, now);
    case InviteDelete(_) => if pick.Some? { DeleteInviteOwned(r, pick.value); }
    case _ =>
  }

  lemma CommandStep(m: Machine, p: Preimage, from: Lookup, req: Option<Request>, pick: Option<Preimage>,
                    draws: Draws, now: nat)
    requires Inv(m) && Enabled(m, Command(p, from, req, pick, draws, now))
    ensures Inv(DoCommand(m, p, from, req, pick, draws, now))
  {
    hide Records.Owned, Records.Live, Dispatch, GoodPick;
    if from.FromPeer? {
      IssuedIsLive(m.records, from.id, p);
      hide Records.LooksUp;
      var r1 := if req.Some? then Dispatch(m.records, from.peer.role, req.value, pick, draws.invite, now).0 else m.records;
      if req.Some? {
        DispatchOwned(m.records, from.peer.role, req.value, pick, draws.invite, now);
      }
      RenewOwned(r1, from.id, p, draws.renewal, now);
    }
  }

  lemma Step(m: Machine, e: Event)
    requires Inv(m) && Enabled(m, e)
    ensures Inv(Next(m, e))
  {
    hide Records.Owned, Records.Live;
    match e
    case LocalInvite(alias, role, random, now) => CreateInviteOwned(m.records, alias, role, random, now);
    case BeginPair(id, p, alias, random, now) => AcceptInviteOwned(m.records, id, p, alias, random, now);
    case EndPair(id, p, relay, now) => EndPairStep(m, id, p, relay, now);
    case Handshake(p, init, random, now) => HandshakeStep(m, p, init, random, now);
    case Command(p, from, req, pick, draws, now) => CommandStep(m, p, from, req, pick, draws, now);
    case Learn(id, p, now) => UpdateOwned(m.records, id, p, now);
  }

  lemma {:induction false} RunKeepsInv(ms: seq<Machine>, es: seq<Event>, i: nat)
    requires Run(ms, es) && i <= |es|
    ensures Inv(ms[i])
    decreases i
  {
    if i > 0 {
      RunKeepsInv(ms, es, i - 1);
      Step(ms[i - 1], es[i - 1]);
    }
  }

  /**
   * In every reachable state each live preimage has one owner, none was ever consumed, and
   * there are as many as invites, started pairings and peers.
   */
  lemma CapabilitiesOwned(m: Machine)
    requires Reachable(m)
    ensures m.records.Owned() && m.records.Live() !! m.consumed
    ensures |m.records.Live()| == |m.records.invites| + |m.records.pending| + |m.records.peers|
  {
    var ms, es :| Run(ms, es) && m == ms[|es|];
    RunKeepsInv(ms, es, |es|);
    LiveSize(m.records);
  }

  lemma LiveSize(r: Records)
    requires r.Owned()
    ensures |r.Live()| == |r.invites| + |r.pending| + |r.peers|
  {
    hide Held, OneEach;
    HeldSize(r.ByInvite());
    HeldSize(r.ByPending());
    HeldSize(r.ByPeer());
    assert r.ByInvite().Keys == r.invites.Keys && r.ByPending().Keys == r.pending.Keys && r.ByPeer().Keys == r.peers.Keys;
    DisjointSize(Held(r.ByInvite()), Held(r.ByPending()), Held(r.ByPeer()));
  }

  lemma DisjointSize<T>(a: set<T>, b: set<T>, c: set<T>)
    requires a !! b !! c
    ensures |a + b + c| == |a| + |b| + |c|
  {
    assert |a + b| == |a| + |b|;
    assert (a + b) * c == {};
  }

  // ---------------------------------------------------------------------------
  // At most one execution for each preimage
  // ---------------------------------------------------------------------------

  /** The preimages under which commands were dispatched in the first `i` steps, in order. */
  ghost function Dispatched(ms: seq<Machine>, es: seq<Event>, i: nat): seq<Preimage>
    requires Run(ms, es) && i <= |es|
  {
    if i == 0 then []
    else Dispatched(ms, es, i - 1) + if Dispatches(ms[i - 1], es[i - 1]) then [es[i - 1].preimage] else []
  }

  /** A preimage that a command was dispatched under was live, and is consumed. */
  lemma DispatchConsumes(m: Machine, e: Event)
    requires Inv(m) && Enabled(m, e) && Dispatches(m, e)
    ensures e.preimage in m.records.Live() && e.preimage in Next(m, e).consumed
  {
    IssuedIsLive(m.records, e.from.id, e.preimage);
    hide Records.Owned, Records.Live;
  }

  lemma ConsumedGrows(m: Machine, e: Event)
    requires Enabled(m, e)
    ensures m.consumed <= Next(m, e).consumed
  {}

  /** Whatever messages arrive, however often, no two commands run under one preimage. */
  lemma {:induction false} AtMostOnce(ms: seq<Machine>, es: seq<Event>, i: nat)
    requires Run(ms, es) && i <= |es|
    ensures NoDuplicates(Dispatched(ms, es, i))
    ensures forall p :: p in Dispatched(ms, es, i) ==> p in ms[i].consumed
    decreases i
  {
    if i > 0 {
      var m, e := ms[i - 1], es[i - 1];
      AtMostOnce(ms, es, i - 1);
      RunKeepsInv(ms, es, i - 1);
      ConsumedGrows(m, e);
      if Dispatches(m, e) {
        DispatchConsumes(m, e);
        AppendFresh(Dispatched(ms, es, i - 1), e.preimage);
      }
    }
  }
}
