/**
 * What a node answers, told by what its peers and the relay see of it: which preimages the frames list,
 * who is turned away, what each command does for an owner, and what a client reads in a response.
 */
module Answers {
  import opened Types
  import opened Wire
  import opened Device
  import opened Nodes
  import History
  import Ownership

  // ---------------------------------------------------------------------------
  // Frames
  // ---------------------------------------------------------------------------

  /** The commits that these frames make the relay list. */
  function Listed(frames: seq<OutFrame>): set<Commit> {
    set f, c | f in frames && f.UpdateFrame? && c in f.commits :: c
  }

  /** There is one acknowledgement, of this id and with this payload. */
  predicate OneAnswer(frames: seq<OutFrame>, msgId: u32, payload: Bytes) {
    exists i :: 0 <= i < |frames| && frames[i] == AckFrame(msgId, payload)
             && forall j :: 0 <= j < |frames| && j != i ==> frames[j].UpdateFrame?
  }

  /** Just these preimages have become live. */
  ghost predicate Gains(r: Records, r': Records, gained: set<Preimage>) {
    forall q :: q in r'.Live() && q !in r.Live() <==> q in gained
  }

  lemma IsLive(r: Records, id: Id, p: Preimage)
    requires id in r.peers && p in r.peers[id].issued
    ensures p in r.Live()
  {
    assert p in r.ByPeer()[id];
  }

  lemma InviteIsLive(r: Records, p: Preimage)
    requires p in r.invites && r.invites[p].preimage == p
    ensures p in r.Live()
  {
    assert p in r.ByInvite()[p];
  }

  // ---------------------------------------------------------------------------
  // A handshake
  // ---------------------------------------------------------------------------

  /** An invite is used up, and a new peer stands in its place. */
  lemma RedeemGains(r: Records, p: Preimage, id: Id, theirs: Preimage, url: Text, random: Preimage, now: nat)
    requires r.Owned() && random !in r.Live() && p in r.invites
    ensures Gains(r, r.CompleteAsInviter(p, id, theirs, url, random, now).value, {random})
  {
    var r1 := r.DeleteInvite(p);
    Ownership.DeleteInviteOwned(r, p);
    var r' := r.CompleteAsInviter(p, id, theirs, url, random, now).value;
    Ownership.PeerAdded(r1, id, r'.peers[id], random);
    IsLive(r', id, random);
    hide Records.Live, Records.Owned;
  }

  /**
   * A handshake under an open invite is acknowledged with a HANDSHAKE_COMPLETE that accepts it and brings the
   * one preimage that has become live by it, and just that is listed. Any other is acknowledged with one that
   * does not, and nothing is listed. The address that an acceptance brings must fit its 16-bit length.
   */
  lemma HandshakeAnswered(r: Records, msgId: u32, p: Preimage, init: HandshakeInit, relay: Text, random: Preimage, now: nat)
    requires r.Owned() && random !in r.Live()
    ensures var (r', frames) := HandshakeOutcome(r, msgId, p, init, relay, random, now);
            && (forall q :: Sha256(q) in Listed(frames) <==> q in r'.Live() && q !in r.Live())
            && exists payload :: OneAnswer(frames, msgId, payload) && ((p in r.invites ==> |relay| < 0x1_0000) ==>
                 && HandshakeComplete.FromBytes(payload).Ok?
                 && HandshakeComplete.FromBytes(payload).value.status == (if p in r.invites then 0 else 1)
                 && (Acceptance(payload).Some? <==> p in r.invites)
                 && (Acceptance(payload).Some? ==>
                       && Acceptance(payload).value.relayUrl == relay
                       && Listed(frames) == {Sha256(Preimage(Acceptance(payload).value.preimageForPeer))}))
  {
    var (r', frames) := HandshakeOutcome(r, msgId, p, init, relay, random, now);
    if p in r.invites {
      var payload := HandshakeComplete(HANDSHAKE_ACCEPTED, random.bytes, relay).ToBytes();
      RedeemGains(r, p, Id(init.senderId), Preimage(init.preimageForPeer), init.relayUrl, random, now);
      if |relay| < 0x1_0000 {
        CompleteReads(HANDSHAKE_ACCEPTED, random.bytes, relay);
      }
      hide Records.Live, Records.Owned, HandshakeComplete.ToBytes, HandshakeComplete.FromBytes;
      assert frames[0] == AckFrame(msgId, payload) && frames == [frames[0], UpdateFrame([Sha256(random)])];
      ListedOf(frames, [Sha256(random)], 1);
      assert OneAnswer(frames, msgId, payload);
    } else {
      var payload := HandshakeComplete(HANDSHAKE_REJECTED, seq(32, _ => 0), []).ToBytes();
      CompleteReads(HANDSHAKE_REJECTED, seq(32, _ => 0), []);
      hide Records.Live, Records.Owned, HandshakeComplete.ToBytes, HandshakeComplete.FromBytes;
      assert frames[0] == AckFrame(msgId, payload) && frames == [frames[0]];
      assert OneAnswer(frames, msgId, payload);
    }
  }

  lemma CompleteReads(status: byte, preimage: Bytes32, relay: Text)
    requires |relay| < 0x1_0000
    ensures var payload := HandshakeComplete(status, preimage, relay).ToBytes();
            && HandshakeComplete.FromBytes(payload) == Ok(HandshakeComplete(status, preimage, relay))
            && (Acceptance(payload) == if status == 0 then Some(HandshakeComplete(0, preimage, relay)) else None)
  {
    HandshakeCompleteExact(HandshakeComplete(status, preimage, relay).ToBytes(), HandshakeComplete(status, preimage, relay));
    hide HandshakeComplete.ToBytes, HandshakeComplete.FromBytes;
  }

  /** The new peer's record is as the invite and the handshake say; without an invite nothing changes. */
  lemma HandshakeRecords(r: Records, msgId: u32, p: Preimage, init: HandshakeInit, relay: Text, random: Preimage, now: nat)
    ensures var r', id := HandshakeOutcome(r, msgId, p, init, relay, random, now).0, Id(init.senderId);
            if p !in r.invites then r' == r
            else && r'.invites == r.invites - {p} && r'.pending == r.pending && r'.peers.Keys == r.peers.Keys + {id}
                 && (forall i :: i in r.peers && i != id ==> r'.peers[i] == r.peers[i])
                 && r'.peers[id].alias == r.invites[p].alias && r'.peers[id].role == r.invites[p].role
                 && r'.peers[id].their == Some(Preimage(init.preimageForPeer))
                 && r'.peers[id].lastKnownRelay == Some(init.relayUrl) && r'.peers[id].lastContacted == now
  {
    hide HandshakeComplete.ToBytes;
  }

  /** Only one of the frames lists anything. */
  lemma ListedOf(frames: seq<OutFrame>, commits: seq<Commit>, i: nat)
    requires i < |frames| && frames[i] == UpdateFrame(commits)
    requires forall j :: 0 <= j < |frames| && j != i ==> frames[j].AckFrame?
    ensures Listed(frames) == set c | c in commits
  {
    assert frames[i] in frames;
  }

  // ---------------------------------------------------------------------------
  // A command
  // ---------------------------------------------------------------------------

  /** Some peer was issued this preimage, and no invite has it. */
  predicate Known(r: Records, p: Preimage) {
    p !in r.invites && exists id :: id in r.peers && p in r.peers[id].issued
  }

  /** Everybody else gets one answer, and that is all that happens. */
  lemma StrangerTurnedAway(r: Records, msg: Message, c: Chance, render: Response -> Bytes, relay: Text, r': Records,
                           frames: seq<OutFrame>)
    requires !IsHandshake(msg.payload) && Serves(r, msg, c, render, relay, r', frames)
    requires !Known(r, msg.preimage)
    ensures r' == r && frames == [AckFrame(msg.msgId, render(Unauthorized))]
  {
    hide CommandOutcome, CommandFrames, GoodPick;
    var from, pick :| ServesCommand(r, msg, c, render, from, pick, r', frames);
    TurnedAway(r, from, msg, c, pick);
  }

  lemma TurnedAway(r: Records, from: Lookup, msg: Message, c: Chance, pick: Option<Preimage>)
    requires !from.FromPeer?
    ensures var h := CommandOutcome(r, from, msg.preimage, c.req, pick, c.draws, c.now);
            && h.records == r && h.response == Unauthorized
            && forall doc :: CommandFrames(msg.msgId, h, doc) == [AckFrame(msg.msgId, doc)]
  {}

  /** The peer's record is as it was, but for what it was issued and when it was heard of. */
  predicate SamePeer(r: PeerRecord, r': PeerRecord) {
    r'.alias == r.alias && r'.role == r.role && r'.lastKnownRelay == r.lastKnownRelay && r'.their == r.their
  }

  /** What a command does to the invites, and how it is answered. */
  ghost predicate Manages(r: Records, role: PeerRole, req: Option<Request>, random: Preimage, now: nat, r': Records,
                          response: Response)
  {
    match req
    case None => r'.invites == r.invites && response == InvalidRequest
    case Some(NodeInfo) => r'.invites == r.invites && response == Info
    case Some(Custom(_)) => r'.invites == r.invites && response == FromHandler
    case Some(InviteCreate(alias, newRole)) =>
      if role != Owner then r'.invites == r.invites && response == Denied
      else
        && response == Token(random) && r'.invites.Keys == r.invites.Keys + {random}
        && r'.invites[random].alias == alias && r'.invites[random].role == newRole && r'.invites[random].createdAt == now
        && forall p :: p in r.invites && p != random ==> r'.invites[p] == r.invites[p]
    case Some(InviteList) =>
      && r'.invites == r.invites
      && (if role != Owner then response == Denied
          else response.Invites? && forall p :: p in response.preimages <==> p in r.invites)
    case Some(InviteDelete(prefix)) =>
      if role != Owner then r'.invites == r.invites && response == Denied
      else if prefix.None? then r'.invites == r.invites && response == BadId
      else if p :| p in r.invites && prefix.value <= p.bytes then
        response == Deleted && exists p :: p in r.invites && prefix.value <= p.bytes && r'.invites == r.invites - {p}
      else r'.invites == r.invites && response == NoSuchInvite
    case Some(PeersList) =>
      && r'.invites == r.invites
      && (if role != Owner then response == Denied
          else response.Peers? && forall id :: id in response.ids <==> id in r.peers)
  }

  lemma DispatchManages(r: Records, role: PeerRole, req: Request, pick: Option<Preimage>, random: Preimage, now: nat)
    requires GoodPick(r, role, req, pick)
    ensures var (r', response) := Dispatch(r, role, req, pick, random, now);
            && r'.pending == r.pending && r'.peers == r.peers && response != Unauthorized
            && Manages(r, role, Some(req), random, now, r', response)
  {
    if role == Owner && req.InviteDelete? && req.prefix.Some? {
      forall p ensures HasPrefix(p, req.prefix.value) <==> req.prefix.value <= p.bytes {}
      if pick.Some? {
        var r' := Dispatch(r, role, req, pick, random, now).0;
        assert pick.value in r.invites && req.prefix.value <= pick.value.bytes && r'.invites == r.invites - {pick.value};
      }
    }
  }

  /** The caller's one preimage gives way to a new one. */
  lemma RenewKeepsPeers(r: Records, id: Id, used: Preimage, random: Preimage, now: nat)
    requires r.Owned() && random !in r.Live() && id in r.peers && used in r.peers[id].issued
    ensures r.ConsumeAndRenew(id, used, random, now).Some?
    ensures var r' := r.ConsumeAndRenew(id, used, random, now).value;
            && r'.invites == r.invites && r'.pending == r.pending && r'.peers.Keys == r.peers.Keys
            && (forall i :: i in r.peers ==> SamePeer(r.peers[i], r'.peers[i]))
            && (forall i :: i in r.peers && i != id ==> r'.peers[i] == r.peers[i])
            && r'.peers[id].issued == [random] && r'.peers[id].lastContacted == now
            && Gains(r, r', {random})
  {
    Ownership.RenewOwned(r, id, used, random, now);
    IsLive(r.ConsumeAndRenew(id, used, random, now).value, id, random);
    hide Records.Live, Records.Owned, Without;
  }

  /** Whatever a peer was issued before: the one used goes, the others stay, and the new one comes last. */
  lemma RenewKeepsOthers(r: Records, id: Id, used: Preimage, random: Preimage, now: nat)
    requires id in r.peers && random !in r.peers[id].issued && used != random
    ensures var issued := r.ConsumeAndRenew(id, used, random, now).value.peers[id].issued;
            && issued != [] && issued[|issued| - 1] == random
            && (forall q :: q in issued <==> (q in r.peers[id].issued && q != used) || q == random)
            && forall q :: multiset(issued)[q] ==
                 if q == used then 0 else if q == random then 1 else multiset(r.peers[id].issued)[q]
  {
    WithoutCounts(r.peers[id].issued, used);
  }

  lemma {:induction false} WithoutCounts(ps: seq<Preimage>, p: Preimage)
    ensures forall q :: multiset(Without(ps, p))[q] == if q == p then 0 else multiset(ps)[q]
    decreases |ps|
  {
    if ps != [] {
      WithoutCounts(ps[1..], p);
      assert ps == [ps[0]] + ps[1..];
    }
  }

  lemma DispatchGains(r: Records, role: PeerRole, req: Request, pick: Option<Preimage>, random: Preimage, now: nat)
    requires r.Owned() && random !in r.Live()
    ensures var r' := Dispatch(r, role, req, pick, random, now).0;
            && r'.Owned() && r'.peers == r.peers && r'.pending == r.pending
            && Gains(r, r', if role == Owner && req.InviteCreate? then {random} else {})
  {
    var r' := Dispatch(r, role, req, pick, random, now).0;
    Ownership.DispatchOwned(r, role, req, pick, random, now);
    if role == Owner && req.InviteCreate? {
      InviteIsLive(r', random);
    }
    hide Records.Live, Records.Owned;
  }

  /** The owner's command has made an invite. */
  predicate Creates(role: PeerRole, req: Option<Request>) {
    role == Owner && req.Some? && req.value.InviteCreate?
  }

  /** A command that is dispatched, or is no request. */
  lemma Dispatched(r: Records, role: PeerRole, req: Option<Request>, pick: Option<Preimage>, random: Preimage, now: nat)
    requires r.Owned() && random !in r.Live() && (req.Some? ==> GoodPick(r, role, req.value, pick))
    ensures var (r', response) := if req.Some? then Dispatch(r, role, req.value, pick, random, now) else (r, InvalidRequest);
            && r'.Owned() && r'.pending == r.pending && r'.peers == r.peers && response != Unauthorized
            && Manages(r, role, req, random, now, r', response)
            && Gains(r, r', if Creates(role, req) then {random} else {})
  {
    if req.Some? {
      DispatchManages(r, role, req.value, pick, random, now);
      DispatchGains(r, role, req.value, pick, random, now);
    }
    hide Dispatch, Records.Owned, Records.Live;
  }

  /**
   * A peer is answered according to its role, and is told the preimage for its next message, which is listed
   * before. That is the only thing listed: an invite that the command creates is not, until the node connects
   * again. Nothing changes but the invites, as the command says, and what the peer was issued.
   */
  lemma KnownAnswered(r: Records, msg: Message, c: Chance, render: Response -> Bytes, relay: Text, r': Records,
                      frames: seq<OutFrame>)
    returns (id: Id, response: Response)
    requires !IsHandshake(msg.payload) && Serves(r, msg, c, render, relay, r', frames)
    requires Known(r, msg.preimage) && r.Owned()
    requires c.draws.invite !in r.Live() && c.draws.renewal !in r.Live() && c.draws.invite != c.draws.renewal
    ensures id in r.peers && msg.preimage in r.peers[id].issued && response != Unauthorized
    ensures frames == [UpdateFrame([Sha256(c.draws.renewal)]), AckFrame(msg.msgId, render(response) + c.draws.renewal.bytes)]
    ensures Manages(r, r.peers[id].role, c.req, c.draws.invite, c.now, r', response)
    ensures r'.pending == r.pending && r'.peers.Keys == r.peers.Keys
    ensures forall i :: i in r.peers ==>
              && SamePeer(r.peers[i], r'.peers[i])
              && (i != id ==> r'.peers[i] == r.peers[i])
    ensures r'.peers[id].issued == [c.draws.renewal] && r'.peers[id].lastContacted == c.now
    ensures Gains(r, r', {c.draws.renewal} + if Creates(r.peers[id].role, c.req) then {c.draws.invite} else {})
    ensures Listed(frames) == {Sha256(c.draws.renewal)}
  {
    hide CommandOutcome, CommandFrames, GoodPick, Manages, Records.Owned, Records.Live, Records.LooksUp, Listed, SamePeer;
    var from, pick :| ServesCommand(r, msg, c, render, from, pick, r', frames);
    KnownCaller(r, msg.preimage, from);
    id := from.id;
    response := PeerAnswered(r, msg, c, id, pick);
    ListedOf(frames, [Sha256(c.draws.renewal)], 0);
  }

  lemma KnownCaller(r: Records, p: Preimage, from: Lookup)
    requires Known(r, p) && r.LooksUp(p, from)
    ensures from.FromPeer? && from.id in r.peers && r.peers[from.id] == from.peer && p in from.peer.issued
  {}

  /** First the dispatch, then the renewal. */
  lemma GainsBoth(r: Records, r1: Records, r2: Records, creates: bool, invite: Preimage, renewal: Preimage)
    requires Gains(r, r1, if creates then {invite} else {}) && Gains(r1, r2, {renewal})
    requires renewal !in r.Live() && r2.Owned() && (creates ==> invite in r2.invites)
    ensures Gains(r, r2, {renewal} + if creates then {invite} else {})
  {
    if creates {
      assert r2.invites[invite].preimage == invite;
      InviteIsLive(r2, invite);
    }
    hide Records.Live, Records.Owned;
  }

  lemma RenewedOwned(r: Records, id: Id, used: Preimage, random: Preimage, now: nat)
    requires r.Owned() && random !in r.Live() && id in r.peers && used in r.peers[id].issued
    ensures r.ConsumeAndRenew(id, used, random, now).Some? && r.ConsumeAndRenew(id, used, random, now).value.Owned()
  {
    Ownership.RenewOwned(r, id, used, random, now);
  }

  /** What dispatching did, the renewal leaves. */
  lemma ManagesOnwards(r: Records, role: PeerRole, req: Option<Request>, random: Preimage, now: nat, r1: Records, r2: Records,
                       response: Response)
    requires Manages(r, role, req, random, now, r1, response) && r2.invites == r1.invites
    ensures Manages(r, role, req, random, now, r2, response)
    ensures Creates(role, req) ==> random in r2.invites
  {}

  lemma PeerAnswered(r: Records, msg: Message, c: Chance, id: Id, pick: Option<Preimage>) returns (response: Response)
    requires id in r.peers && msg.preimage in r.peers[id].issued && r.Owned()
    requires c.req.Some? ==> GoodPick(r, r.peers[id].role, c.req.value, pick)
    requires c.draws.invite !in r.Live() && c.draws.renewal !in r.Live() && c.draws.invite != c.draws.renewal
    ensures response != Unauthorized
    ensures var h := CommandOutcome(r, FromPeer(id, r.peers[id]), msg.preimage, c.req, pick, c.draws, c.now);
            var r', role, renewal := h.records, r.peers[id].role, c.draws.renewal;
            && h.response == response
            && (forall doc :: CommandFrames(msg.msgId, h, doc) ==
                  [UpdateFrame([Sha256(renewal)]), AckFrame(msg.msgId, doc + renewal.bytes)])
            && Manages(r, role, c.req, c.draws.invite, c.now, r', response)
            && r'.pending == r.pending && r'.peers.Keys == r.peers.Keys
            && (forall i :: i in r.peers ==> SamePeer(r.peers[i], r'.peers[i]) && (i != id ==> r'.peers[i] == r.peers[i]))
            && r'.peers[id].issued == [renewal] && r'.peers[id].lastContacted == c.now
            && Gains(r, r', {renewal} + if Creates(role, c.req) then {c.draws.invite} else {})
  {
    var role, draws := r.peers[id].role, c.draws;
    var (r1, answer) :=
      if c.req.Some? then Dispatch(r, role, c.req.value, pick, draws.invite, c.now) else (r, InvalidRequest);
    response := answer;
    Dispatched(r, role, c.req, pick, draws.invite, c.now);
    hide Dispatch, GoodPick, Manages, SamePeer, Records.Owned, Records.Live, Records.ConsumeAndRenew;
    assert draws.renewal !in r1.Live();
    RenewKeepsPeers(r1, id, msg.preimage, draws.renewal, c.now);
    RenewedOwned(r1, id, msg.preimage, draws.renewal, c.now);
    var r2 := r1.ConsumeAndRenew(id, msg.preimage, draws.renewal, c.now).value;
    ManagesOnwards(r, role, c.req, draws.invite, c.now, r1, r2, response);
    hide Gains;
    GainsBoth(r, r1, r2, Creates(role, c.req), draws.invite, draws.renewal);
  }

  /** A command is dispatched exactly if it is a request under a preimage that a peer was issued. */
  lemma DispatchedExactly(m: History.Machine, e: History.Event)
    requires History.Enabled(m, e) && e.Command?
    ensures History.Dispatches(m, e) <==> Known(m.records, e.preimage) && e.req.Some?
  {
    hide Dispatch, GoodPick, Records.ConsumeAndRenew;
  }

  // ---------------------------------------------------------------------------
  // What a payload is
  // ---------------------------------------------------------------------------

  /**
   * A client takes `p` from a response exactly if the response is no JSON text as a whole, and a text that is
   * one, followed by the 32 bytes of `p`.
   */
  lemma LearnsExactly(json: Bytes -> bool, payload: Bytes, p: Preimage)
    ensures Learned(json, payload) == Some(p) <==>
            !json(payload) && exists doc :: doc != [] && json(doc) && payload == doc + p.bytes
  {
    if Learned(json, payload) == Some(p) {
      var doc := payload[..|payload| - 32];
      assert doc != [] && payload == doc + p.bytes;
    }
    forall doc | doc != [] && payload == doc + p.bytes
      ensures payload[..|payload| - 32] == doc && payload[|payload| - 32..] == p.bytes
    {}
  }

  /** Which payloads are served as handshakes: those of HANDSHAKE_INIT, and never a JSON text or another device message. */
  lemma HandshakesRecognised(init: HandshakeInit, complete: HandshakeComplete, message: DeviceMessage,
                             response: DeviceMessageResponse, text: Bytes)
    ensures IsHandshake(init.ToBytes())
    ensures !IsHandshake(complete.ToBytes()) && !IsHandshake(message.ToBytes()) && !IsHandshake(response.ToBytes())
    ensures text != [] && text[0] >= 0x09 ==> !IsHandshake(text)
  {}

  // ---------------------------------------------------------------------------
  // Records over a pairing
  // ---------------------------------------------------------------------------

  /**
   * An invite that is redeemed becomes a peer with the invite's name and role, what the handshake brought and
   * one new preimage, and can be redeemed by nobody else. Nothing else changes, and nothing happens without an invite.
   */
  lemma InviteBecomesPeer(r: Records, alias: string, role: PeerRole, p: Preimage, made: nat, id: Id, theirs: Preimage,
                          url: Text, random: Preimage, now: nat)
    requires p !in r.invites
    ensures r.CompleteAsInviter(p, id, theirs, url, random, now).None?
    ensures var done := r.CreateInvite(alias, role, p, made).CompleteAsInviter(p, id, theirs, url, random, now);
            && done.Some?
            && done.value == r.(peers := r.peers[id := PeerRecord(alias, role, Some(url), now, [random], Some(theirs))])
            && forall id2, theirs2, url2, random2, now2 ::
                 done.value.CompleteAsInviter(p, id2, theirs2, url2, random2, now2).None?
  {
    assert r.invites[p := InviteRecord(alias, p, role, made)] - {p} == r.invites;
  }

  /**
   * An accepted invite becomes, when its HANDSHAKE_COMPLETE comes, a peer with the name given to it, the
   * preimage made for it and what the answer brought, once. Nothing else changes, and nothing happens without one.
   */
  lemma AcceptedBecomesPeer(r: Records, id: Id, token: Preimage, alias: string, mine: Preimage, made: nat, theirs: Preimage,
                            url: Option<Text>, now: nat)
    requires id !in r.pending
    ensures r.CompleteAsAcceptor(id, theirs, url, now).None?
    ensures var started := r.AcceptInvite(id, token, alias, mine, made);
            && id in started.pending && started.pending[id] == PendingPeer(alias, id, token, mine, made)
            && started.peers == r.peers
            && var done := started.CompleteAsAcceptor(id, theirs, url, now);
               && done.Some?
               && done.value == r.(peers := r.peers[id := PeerRecord(alias, Reader, url, now, [mine], Some(theirs))])
               && forall theirs2, url2, now2 :: done.value.CompleteAsAcceptor(id, theirs2, url2, now2).None?
  {
    assert r.pending[id := PendingPeer(alias, id, token, mine, made)] - {id} == r.pending;
  }

  /** The address in an answer is remembered unless it is empty. */
  lemma AddressKept(preimage: Bytes32, relay: Text)
    requires |relay| < 0x1_0000
    ensures var complete := HandshakeComplete(0, preimage, relay).ToBytes();
            && Acceptance(complete).Some?
            && RelayOf(Acceptance(complete).value) == if relay == [] then None else Some(relay)
  {
    CompleteReads(0, preimage, relay);
    hide HandshakeComplete.ToBytes, HandshakeComplete.FromBytes, Acceptance;
  }

  /** What the client learns replaces what it sends with next, and only that, if it knows the peer. */
  lemma LearningKeepsPeers(r: Records, id: Id, p: Preimage, now: nat, i: Id)
    ensures var r' := r.UpdatePeerPreimage(id, p, now);
            && r'.invites == r.invites && r'.pending == r.pending && r'.peers.Keys == r.peers.Keys
            && r'.GetPeerPreimage(i) == (if i == id && id in r.peers then Some(p) else r.GetPeerPreimage(i))
            && (i in r.peers ==>
                  && r'.peers[i].issued == r.peers[i].issued && r'.peers[i].role == r.peers[i].role
                  && r'.peers[i].alias == r.peers[i].alias && r'.peers[i].lastKnownRelay == r.peers[i].lastKnownRelay
                  && r'.peers[i].lastContacted == if i == id then now else r.peers[i].lastContacted)
  {}
}
