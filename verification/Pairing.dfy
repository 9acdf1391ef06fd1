/**
 * Pairing: one node has made an invite, and another calls `pair` with its token, as often as it
 * likes. Both nodes do anything else in between. Anybody who has a token may send a handshake under
 * it, in whatever name, and sessions of the relay may acknowledge messages that were not delivered to
 * them. When a call returns successfully, the two nodes agree on each other's preimages exactly if the
 * record that the inviter last made of the acceptor came from this call's preimage, and the answer says
 * what was issued for that record.
 */
module Pairing {
  import opened Types
  import opened Wire
  import opened Device
  import opened Nodes
  import History
  import Ownership
  import Relay
  import Schedules
  import System

  // ---------------------------------------------------------------------------
  // A node's record of the other
  // ---------------------------------------------------------------------------

  /** What a record of a peer holds: the preimage to send with, and the one issued to the peer. */
  datatype Hold = Hold(their: Preimage, issued: Preimage)

  function Recorded(r: Records, id: Id): Option<Hold> {
    if id in r.peers && r.peers[id].their.Some? && |r.peers[id].issued| == 1
    then Some(Hold(r.peers[id].their.value, r.peers[id].issued[0])) else None
  }

  /** What this step puts into a new record of `id`: an invite is redeemed in its name, or an own call of `pair` ends. */
  function Made(m: History.Machine, e: History.Event, id: Id): Option<Hold> {
    match e
    case Handshake(p, init, random, _) =>
      if Id(init.senderId) == id && p in m.records.invites then Some(Hold(Preimage(init.preimageForPeer), random)) else None
    case EndPair(theirId, p, _, _) =>
      if theirId == id && id in m.records.pending then Some(Hold(p, m.records.pending[id].myPreimage)) else None
    case _ => None
  }

  /** This step changes the record of `id` that is there: a command from it is handled, or a response read. */
  predicate Uses(e: History.Event, id: Id) {
    match e
    case Command(_, from, _, _, _, _) => from.FromPeer? && from.id == id
    case Learn(peerId, _, _) => peerId == id
    case _ => false
  }

  /** An own call of `pair` with `id` begins or ends. */
  predicate Pairs(e: History.Event, id: Id) {
    match e
    case BeginPair(theirId, _, _, _, _) => theirId == id
    case EndPair(theirId, _, _, _) => theirId == id
    case _ => false
  }

  lemma RecordMade(m: History.Machine, e: History.Event, id: Id)
    requires History.Enabled(m, e) && Made(m, e, id).Some?
    ensures Recorded(History.Next(m, e).records, id) == Made(m, e, id)
  {}

  lemma RecordKept(m: History.Machine, e: History.Event, id: Id)
    requires History.Enabled(m, e) && Made(m, e, id).None? && !Uses(e, id)
    ensures var r, r' := m.records, History.Next(m, e).records;
            && (id in r'.peers <==> id in r.peers) && (id in r.peers ==> r'.peers[id] == r.peers[id])
  {}

  lemma PendingKept(m: History.Machine, e: History.Event, id: Id)
    requires History.Enabled(m, e) && !Pairs(e, id)
    ensures var r, r' := m.records, History.Next(m, e).records;
            && (id in r'.pending <==> id in r.pending) && (id in r.pending ==> r'.pending[id] == r.pending[id])
  {}

  lemma DrawnKept(m: History.Machine, e: History.Event)
    requires History.Enabled(m, e)
    ensures m.drawn <= History.Next(m, e).drawn
  {}

  // ---------------------------------------------------------------------------
  // The two nodes
  // ---------------------------------------------------------------------------

  /** History: in whose name the invite was redeemed, and what was issued for that. */
  datatype Redemption = Redemption(who: Id, given: Preimage)

  /** How `pair` returned, and the answer it succeeded with. */
  datatype Outcome = Failed | Paired(reply: Bytes)

  /**
   * `mine` is the preimage that the latest call made for the inviter, and `request` its
   * HANDSHAKE_INIT. `replies` are the payloads that the inviter acknowledged messages under
   * the token's preimage with, and `foreign` those that other sessions acknowledged such messages
   * with, or loaded for the token: a relay answers a send with one of these, fresh or cached.
   */
  datatype Pair = Pair(
    inviterId: Id, inviter: History.Machine,
    acceptorId: Id, acceptor: History.Machine,
    token: Preimage,
    mine: Option<Preimage>, request: Bytes, returned: Option<Outcome>,
    replies: set<Bytes>, foreign: set<Bytes>, redeemed: Option<Redemption>)
  {
    predicate Calling() {
      mine.Some? && returned.None?
    }

    function There(): Option<Hold> {
      Recorded(inviter.records, acceptorId)
    }

    function Here(): Option<Hold> {
      Recorded(acceptor.records, inviterId)
    }
  }

  datatype Event =
    | AtInviter(event: History.Event, relay: Text)
    | AtAcceptor(event: History.Event)
    | OtherReply(reply: Bytes)
    | Foreign(reply: Bytes)
    | Call(alias: string, random: Preimage, relay: Text, now: nat)
    | Answer(reply: Bytes, now: nat)
    | Fail

  /** What the inviter writes back for a HANDSHAKE_INIT: the payload of its acknowledgement. */
  function Reply(m: History.Machine, p: Preimage, init: HandshakeInit, random: Preimage, relay: Text): Bytes {
    if p in m.records.invites then HandshakeComplete(HANDSHAKE_ACCEPTED, random.bytes, relay).ToBytes()
    else HandshakeComplete(HANDSHAKE_REJECTED, seq(32, _ => 0), []).ToBytes()
  }

  /** That is what the node writes. */
  lemma ReplyIsAcked(m: History.Machine, msgId: u32, p: Preimage, init: HandshakeInit, relay: Text, random: Preimage,
                     now: nat)
    ensures var frames := HandshakeOutcome(m.records, msgId, p, init, relay, random, now).1;
            frames != [] && frames[0] == AckFrame(msgId, Reply(m, p, init, random, relay))
  {}

  /** The acceptor has not drawn it, and nobody has guessed it to the inviter. */
  predicate New(w: Pair, random: Preimage) {
    random !in w.acceptor.drawn && (w.There().Some? ==> w.There().value.their != random)
  }

  ghost predicate Enabled(w: Pair, e: Event) {
    match e
    case AtInviter(event, _) => History.Enabled(w.inviter, event)
    // a call has the node to itself
    case AtAcceptor(event) => History.Enabled(w.acceptor, event) && (w.Calling() ==> !Pairs(event, w.inviterId))
    // answers to commands are JSON texts
    case OtherReply(reply) => reply == [] || reply[0] != DEV_HANDSHAKE_COMPLETE
    // any session may acknowledge any id, and a device may load any response
    case Foreign(_) => true
    case Call(_, random, _, _) => !w.Calling() && New(w, random)
    case Answer(reply, _) => w.Calling() && reply in w.replies + w.foreign
    case Fail => w.Calling()
  }

  /** The inviter handles a HANDSHAKE_INIT under some preimage. */
  ghost function Handle(w: Pair, p: Preimage, init: HandshakeInit, random: Preimage, relay: Text, now: nat): Pair
    requires random !in w.inviter.drawn
  {
    var w' := w.(inviter := History.Next(w.inviter, History.Handshake(p, init, random, now)));
    if p != w.token then w'
    else w'.(replies := w.replies + {Reply(w.inviter, p, init, random, relay)},
             redeemed := if p in w.inviter.records.invites then Some(Redemption(Id(init.senderId), random)) else w.redeemed)
  }

  /** The preimage that an acceptance brings. */
  function Told(reply: Bytes): Preimage
    requires Acceptance(reply).Some?
  {
    Preimage(Acceptance(reply).value.preimageForPeer)
  }

  function DoAnswer(w: Pair, reply: Bytes, now: nat): Pair {
    match Acceptance(reply)
    case None => w.(returned := Some(Failed))
    case Some(complete) =>
      w.(acceptor := History.DoEndPair(w.acceptor, w.inviterId, Told(reply), RelayOf(complete), now),
         returned := Some(Paired(reply)))
  }

  ghost function Next(w: Pair, e: Event): Pair
    requires Enabled(w, e)
  {
    match e
    case AtInviter(Handshake(p, init, random, now), relay) => Handle(w, p, init, random, relay, now)
    case AtInviter(event, _) => w.(inviter := History.Next(w.inviter, event))
    case AtAcceptor(event) => w.(acceptor := History.Next(w.acceptor, event))
    case OtherReply(reply) => w.(replies := w.replies + {reply})
    case Foreign(reply) => w.(foreign := w.foreign + {reply})
    case Call(alias, random, relay, now) =>
      w.(acceptor := History.Next(w.acceptor, History.BeginPair(w.inviterId, w.token, alias, random, now)),
         mine := Some(random), request := HandshakeInit(w.acceptorId.bytes, random.bytes, relay).ToBytes(),
         returned := None)
    case Answer(reply, now) => DoAnswer(w, reply, now)
    case Fail => w.(returned := Some(Failed))
  }

  /** The invite is open, and nobody has called anything yet. */
  ghost predicate Init(w: Pair) {
    && History.Reachable(w.inviter) && History.Reachable(w.acceptor) && w.token in w.inviter.records.invites
    && w.mine == None && w.request == [] && w.returned == None && w.replies == {} && w.foreign == {} && w.redeemed == None
  }

  ghost predicate Run(ws: seq<Pair>, es: seq<Event>) {
    && |ws| == |es| + 1 && Init(ws[0])
    && forall i :: 0 <= i < |es| ==> Enabled(ws[i], es[i]) && ws[i + 1] == Next(ws[i], es[i])
  }

  /** Each side holds what the other side issued to it, and nothing else was. */
  predicate Agreed(w: Pair) {
    w.There().Some? && w.Here() == Some(Hold(w.There().value.issued, w.There().value.their))
  }

  // ---------------------------------------------------------------------------
  // What a handshake says, however long its relay address is
  // ---------------------------------------------------------------------------

  lemma InitFields(m: HandshakeInit, parsed: HandshakeInit)
    requires HandshakeInit.FromBytes(m.ToBytes()) == Ok(parsed)
    ensures parsed.senderId == m.senderId && parsed.preimageForPeer == m.preimageForPeer
  {
    hide BE16, U16At, ValidUtf8;
    var d := m.ToBytes();
    assert d[1..33] == m.senderId && d[33..65] == m.preimageForPeer;
  }

  lemma CompleteFields(m: HandshakeComplete, parsed: HandshakeComplete)
    requires HandshakeComplete.FromBytes(m.ToBytes()) == Ok(parsed)
    ensures parsed.status == m.status && parsed.preimageForPeer == m.preimageForPeer
  {
    hide BE16, U16At, ValidUtf8;
    var d := m.ToBytes();
    assert d[1] == m.status && d[2..34] == m.preimageForPeer;
  }

  // ---------------------------------------------------------------------------
  // What every step keeps
  // ---------------------------------------------------------------------------

  /** Whoever is told that it was accepted is told the preimage that was issued. */
  ghost predicate Truthful(replies: set<Bytes>, redeemed: Option<Redemption>) {
    forall r :: r in replies && Acceptance(r).Some? ==> redeemed.Some? && redeemed.value.given == Told(r)
  }

  /** The invite is redeemed once, and every acceptance tells the same. */
  ghost predicate InviterSide(w: Pair) {
    && Ownership.Inv(w.inviter) && w.token in w.inviter.drawn
    && (w.redeemed.Some? ==> w.token !in w.inviter.records.invites)
    && Truthful(w.replies, w.redeemed)
  }

  /** A call under way has its pending record. */
  ghost predicate AcceptorSide(w: Pair) {
    && (w.mine.None? ==> w.request == [])
    && (w.mine.Some? ==>
          exists relay :: w.request == HandshakeInit(w.acceptorId.bytes, w.mine.value.bytes, relay).ToBytes())
    && (w.Calling() ==>
          w.inviterId in w.acceptor.records.pending && w.acceptor.records.pending[w.inviterId].myPreimage == w.mine.value)
  }

  ghost predicate Inv(w: Pair) {
    InviterSide(w) && AcceptorSide(w)
  }

  lemma AcceptorSame(w: Pair, w': Pair)
    requires AcceptorSide(w) && w'.acceptorId == w.acceptorId && w'.inviterId == w.inviterId
    requires w'.mine == w.mine && w'.request == w.request
    requires w'.returned == w.returned || w'.returned.Some?
    requires w'.Calling() && w.inviterId in w.acceptor.records.pending ==>
               && w.inviterId in w'.acceptor.records.pending
               && w'.acceptor.records.pending[w.inviterId] == w.acceptor.records.pending[w.inviterId]
    ensures AcceptorSide(w')
  {
    hide HandshakeInit.ToBytes;
    if w.mine.Some? {
      var relay :| w.request == HandshakeInit(w.acceptorId.bytes, w.mine.value.bytes, relay).ToBytes();
      assert w'.request == HandshakeInit(w'.acceptorId.bytes, w'.mine.value.bytes, relay).ToBytes();
    }
  }

  /** An invite that was drawn before and is gone does not come back. */
  lemma GoneStaysGone(m: History.Machine, e: History.Event, p: Preimage)
    requires History.Enabled(m, e) && p in m.drawn && p !in m.records.invites
    ensures p !in History.Next(m, e).records.invites
  {}

  lemma ReplyTruthful(w: Pair, init: HandshakeInit, random: Preimage, relay: Text)
    requires Truthful(w.replies, w.redeemed)
    requires w.redeemed.Some? ==> w.token !in w.inviter.records.invites
    ensures Truthful(w.replies + {Reply(w.inviter, w.token, init, random, relay)},
                     if w.token in w.inviter.records.invites then Some(Redemption(Id(init.senderId), random)) else w.redeemed)
  {
    var reply := Reply(w.inviter, w.token, init, random, relay);
    var m := if w.token in w.inviter.records.invites then HandshakeComplete(HANDSHAKE_ACCEPTED, random.bytes, relay)
             else HandshakeComplete(HANDSHAKE_REJECTED, seq(32, _ => 0), []);
    if HandshakeComplete.FromBytes(reply).Ok? {
      CompleteFields(m, HandshakeComplete.FromBytes(reply).value);
    }
    hide HandshakeComplete.FromBytes, HandshakeComplete.ToBytes;
  }

  lemma Redeemed(m: History.Machine, e: History.Event)
    requires e.Handshake? && History.Enabled(m, e) && e.preimage in m.records.invites
    ensures e.preimage !in History.Next(m, e).records.invites
  {}

  /** Any step of the inviter. */
  lemma InviterStep(w: Pair, e: Event)
    requires e.AtInviter? && Enabled(w, e) && InviterSide(w)
    ensures InviterSide(Next(w, e))
  {
    Ownership.Step(w.inviter, e.event);
    DrawnKept(w.inviter, e.event);
    if w.token !in w.inviter.records.invites {
      GoneStaysGone(w.inviter, e.event, w.token);
    }
    if e.event.Handshake? && e.event.preimage == w.token {
      ReplyTruthful(w, e.event.init, e.event.random, e.relay);
      if w.token in w.inviter.records.invites {
        Redeemed(w.inviter, e.event);
      }
    }
    hide Ownership.Inv, History.Next, History.Enabled, Truthful, Reply;
  }

  lemma NoAcceptance(reply: Bytes)
    requires reply == [] || reply[0] != DEV_HANDSHAKE_COMPLETE
    ensures Acceptance(reply).None?
  {}

  lemma Called(w: Pair, e: Event)
    requires e.Call? && Enabled(w, e)
    ensures AcceptorSide(Next(w, e))
  {
    hide HandshakeInit.ToBytes;
    var w' := Next(w, e);
    assert w'.request == HandshakeInit(w'.acceptorId.bytes, w'.mine.value.bytes, e.relay).ToBytes();
  }

  lemma Step(w: Pair, e: Event)
    requires Enabled(w, e) && Inv(w)
    ensures Inv(Next(w, e))
  {
    hide History.Next, History.Enabled, AcceptorSide, InviterSide, Acceptance, HandshakeInit.ToBytes;
    match e
    case AtInviter(_, _) =>
      InviterStep(w, e);
      AcceptorSame(w, Next(w, e));
    case Call(_, _, _, _) =>
      Called(w, e);
      InviterSame(w, Next(w, e));
    case AtAcceptor(event) =>
      if w.Calling() {
        PendingKept(w.acceptor, event, w.inviterId);
      }
      AcceptorSame(w, Next(w, e));
      InviterSame(w, Next(w, e));
    case OtherReply(reply) =>
      NoAcceptance(reply);
      InviterSame(w, Next(w, e));
      AcceptorSame(w, Next(w, e));
    case _ =>
      InviterSame(w, Next(w, e));
      AcceptorSame(w, Next(w, e));
  }

  lemma InviterSame(w: Pair, w': Pair)
    requires InviterSide(w) && w'.inviter == w.inviter && w'.token == w.token && w'.redeemed == w.redeemed
    requires forall r :: r in w'.replies && Acceptance(r).Some? ==> r in w.replies
    ensures InviterSide(w')
  {
    hide Ownership.Inv, Acceptance;
  }

  lemma {:induction false} RunKeepsInv(ws: seq<Pair>, es: seq<Event>, i: nat)
    requires Run(ws, es) && i <= |es|
    ensures Inv(ws[i])
    decreases i
  {
    hide Inv, Next, Enabled, Init;
    if i > 0 {
      RunKeepsInv(ws, es, i - 1);
      Step(ws[i - 1], es[i - 1]);
    } else {
      InvAtFirst(ws[0]);
    }
  }

  lemma InvAtFirst(w: Pair)
    requires Init(w)
    ensures Inv(w)
  {
    var ms, es :| History.Run(ms, es) && w.inviter == ms[|es|];
    Ownership.RunKeepsInv(ms, es, |es|);
    hide History.Run;
    OpenDrawn(w.inviter, w.token);
  }

  lemma OpenDrawn(m: History.Machine, p: Preimage)
    requires Ownership.Inv(m) && p in m.records.invites
    ensures p in m.drawn
  {
    Ownership.DeleteInviteOwned(m.records, p);
  }

  // ---------------------------------------------------------------------------
  // The inviter's record of the acceptor
  // ---------------------------------------------------------------------------

  /** What this step puts into the inviter's record of the acceptor. */
  function MadeThere(w: Pair, e: Event): Option<Hold> {
    if e.AtInviter? then Made(w.inviter, e.event, w.acceptorId) else None
  }

  predicate UsesThere(w: Pair, e: Event) {
    e.AtInviter? && Uses(e.event, w.acceptorId)
  }

  /** Apart from the calls that we follow, the acceptor makes no new record of the inviter, and uses none. */
  predicate SparesHere(w: Pair, e: Event) {
    e.AtAcceptor? ==> Made(w.acceptor, e.event, w.inviterId).None? && !Uses(e.event, w.inviterId)
  }

  /** Of the first `i` steps, the `k`-th is the last in which the inviter makes a record of the acceptor. */
  ghost predicate LastMade(ws: seq<Pair>, es: seq<Event>, i: nat, k: nat)
    requires |ws| == |es| + 1 && i <= |es|
  {
    k < i && MadeThere(ws[k], es[k]).Some? && forall t :: k < t < i ==> MadeThere(ws[t], es[t]).None?
  }

  /** No command has been handled, and no response read, by the record that the inviter last made. */
  ghost predicate Unused(ws: seq<Pair>, es: seq<Event>, i: nat)
    requires |ws| == |es| + 1 && i <= |es|
  {
    forall t :: 0 <= t < i && UsesThere(ws[t], es[t]) ==> exists k :: t < k < i && MadeThere(ws[k], es[k]).Some?
  }

  lemma SameIds(w: Pair, e: Event)
    requires Enabled(w, e)
    ensures var w' := Next(w, e); w'.inviterId == w.inviterId && w'.acceptorId == w.acceptorId && w'.token == w.token
  {
    hide History.Next, History.Enabled, Acceptance, HandshakeInit.ToBytes;
  }

  lemma ThereStep(w: Pair, e: Event)
    requires Enabled(w, e)
    ensures MadeThere(w, e).Some? ==> Next(w, e).There() == MadeThere(w, e)
    ensures MadeThere(w, e).None? && !UsesThere(w, e) ==> Next(w, e).There() == w.There()
  {
    SameIds(w, e);
    if e.AtInviter? {
      if MadeThere(w, e).Some? {
        RecordMade(w.inviter, e.event, w.acceptorId);
      } else if !UsesThere(w, e) {
        RecordKept(w.inviter, e.event, w.acceptorId);
      }
    }
    hide History.Next, History.Enabled, Made, Acceptance, HandshakeInit.ToBytes;
  }

  lemma UnusedBefore(ws: seq<Pair>, es: seq<Event>, i: nat)
    requires |ws| == |es| + 1 && 0 < i <= |es| && Unused(ws, es, i) && MadeThere(ws[i - 1], es[i - 1]).None?
    ensures Unused(ws, es, i - 1) && !UsesThere(ws[i - 1], es[i - 1])
  {
    hide MadeThere, UsesThere;
  }

  /** The inviter's record is the one that was last made, or the one from before. */
  lemma {:induction false} ThereIsLast(ws: seq<Pair>, es: seq<Event>, i: nat) returns (k: nat)
    requires Run(ws, es) && i <= |es| && Unused(ws, es, i)
    ensures if k < i then LastMade(ws, es, i, k) && ws[i].There() == MadeThere(ws[k], es[k])
            else forall t :: 0 <= t < i ==> MadeThere(ws[t], es[t]).None? && !UsesThere(ws[t], es[t])
    decreases i
  {
    hide Init, Next, Enabled, Unused, MadeThere, UsesThere, Pair.There;
    if i == 0 {
      k := 0;
    } else {
      ThereStep(ws[i - 1], es[i - 1]);
      if MadeThere(ws[i - 1], es[i - 1]).Some? {
        k := i - 1;
      } else {
        UnusedBefore(ws, es, i);
        k := ThereIsLast(ws, es, i - 1);
        k := if k < i - 1 then k else i;
      }
    }
  }

  lemma {:induction false} ThereStays(ws: seq<Pair>, es: seq<Event>, c: nat, i: nat)
    requires Run(ws, es) && c <= i <= |es|
    requires forall t :: c <= t < i ==> MadeThere(ws[t], es[t]).None? && !UsesThere(ws[t], es[t])
    ensures ws[i].There() == ws[c].There()
    decreases i
  {
    hide Init, Next, Enabled, MadeThere, UsesThere, Pair.There;
    if c < i {
      ThereStays(ws, es, c, i - 1);
      ThereStep(ws[i - 1], es[i - 1]);
    }
  }

  /** The call under way, or the last one, and its preimage. */
  lemma {:induction false} CallBefore(ws: seq<Pair>, es: seq<Event>, i: nat) returns (c: nat)
    requires Run(ws, es) && i <= |es| && ws[i].mine.Some?
    ensures c < i && es[c].Call? && ws[i].mine == Some(es[c].random)
    decreases i
  {
    hide Next, Enabled;
    if i > 0 {
      MineStep(ws[i - 1], es[i - 1]);
      if es[i - 1].Call? {
        c := i - 1;
      } else {
        c := CallBefore(ws, es, i - 1);
      }
    }
  }

  lemma MineStep(w: Pair, e: Event)
    requires Enabled(w, e)
    ensures Next(w, e).mine == if e.Call? then Some(e.random) else w.mine
  {
    hide History.Next, History.Enabled, Acceptance, HandshakeInit.ToBytes;
  }

  // ---------------------------------------------------------------------------
  // The acceptor's record of the inviter
  // ---------------------------------------------------------------------------

  predicate Succeeds(e: Event) {
    e.Answer? && Acceptance(e.reply).Some?
  }

  lemma SuccessRecords(w: Pair, e: Event)
    requires Succeeds(e) && Enabled(w, e) && AcceptorSide(w)
    ensures var w' := Next(w, e);
            && w'.returned == Some(Paired(e.reply)) && w'.inviterId !in w'.acceptor.records.pending
            && w'.Here() == Some(Hold(Told(e.reply), w.mine.value))
  {
    hide Acceptance, HandshakeInit.ToBytes;
  }

  lemma HereStep(w: Pair, e: Event)
    requires Enabled(w, e) && SparesHere(w, e) && !Succeeds(e)
    ensures Next(w, e).Here() == w.Here()
  {
    SameIds(w, e);
    if e.AtAcceptor? {
      RecordKept(w.acceptor, e.event, w.inviterId);
    } else if e.Call? {
      RecordKept(w.acceptor, History.BeginPair(w.inviterId, w.token, e.alias, e.random, e.now), w.inviterId);
    }
    hide History.Next, History.Enabled, Made, Acceptance, HandshakeInit.ToBytes;
  }

  lemma {:induction false} HereStays(ws: seq<Pair>, es: seq<Event>, j: nat, i: nat)
    requires Run(ws, es) && j <= i <= |es|
    requires forall t :: j <= t < i ==> SparesHere(ws[t], es[t]) && !Succeeds(es[t])
    ensures ws[i].Here() == ws[j].Here()
    decreases i
  {
    hide Init, Next, Enabled, SparesHere, Succeeds, Pair.Here;
    if j < i {
      HereStays(ws, es, j, i - 1);
      HereStep(ws[i - 1], es[i - 1]);
    }
  }

  // ---------------------------------------------------------------------------
  // What follows for every run
  // ---------------------------------------------------------------------------

  /**
   * Step `j` is a successful return of `pair`. It uses up the pending record, and as long as the acceptor
   * keeps the record it made then, the two sides agree exactly if the record that the inviter last made of
   * the acceptor holds this call's preimage, and the one that the answer told: whoever redeems which
   * invite in whose name, and whoever acknowledges. The inviter's own answers tell what it issued when
   * the token's invite was redeemed.
   */
  lemma PairingAgreement(ws: seq<Pair>, es: seq<Event>, j: nat, i: nat)
    requires Run(ws, es) && j < i <= |es| && Succeeds(es[j])
    requires forall t :: j < t < i ==> SparesHere(ws[t], es[t]) && !Succeeds(es[t])
    requires Unused(ws, es, i)
    ensures ws[j + 1].returned == Some(Paired(es[j].reply)) && ws[j].mine.Some?
    ensures ws[j + 1].inviterId !in ws[j + 1].acceptor.records.pending
    ensures Agreed(ws[i]) <==>
            exists k: nat :: LastMade(ws, es, i, k)
                     && MadeThere(ws[k], es[k]) == Some(Hold(ws[j].mine.value, Told(es[j].reply)))
    ensures es[j].reply in ws[j].replies ==>
              && ws[j].redeemed.Some? && ws[j].redeemed.value.given == Told(es[j].reply)
              && ws[j].token !in ws[j].inviter.records.invites
  {
    RunKeepsInv(ws, es, j);
    OwnAnswer(ws[j], es[j]);
    assert Enabled(ws[j], es[j]) && ws[j].mine.Some?;
    hide Init, Next, Enabled, InviterSide, MadeThere, UsesThere, SparesHere, Unused, LastMade, Pair.There, Pair.Here,
         Acceptance;
    SuccessRecords(ws[j], es[j]);
    HereStays(ws, es, j + 1, i);
    var k := ThereIsLast(ws, es, i);
    if k < i {
      OneLast(ws, es, i, k);
    } else {
      NeverHeld(ws, es, j, i);
      forall t: nat ensures !LastMade(ws, es, i, t) {
        NoneLast(ws, es, i, t);
      }
    }
  }

  lemma OwnAnswer(w: Pair, e: Event)
    requires Succeeds(e) && InviterSide(w)
    ensures e.reply in w.replies ==>
              && w.redeemed.Some? && w.redeemed.value.given == Told(e.reply) && w.token !in w.inviter.records.invites
  {
    hide Ownership.Inv, Acceptance;
  }

  lemma OneLast(ws: seq<Pair>, es: seq<Event>, i: nat, k: nat)
    requires |ws| == |es| + 1 && i <= |es| && LastMade(ws, es, i, k)
    ensures forall t :: LastMade(ws, es, i, t) ==> t == k
  {
    hide MadeThere;
  }

  lemma NoneLast(ws: seq<Pair>, es: seq<Event>, i: nat, k: nat)
    requires |ws| == |es| + 1 && i <= |es| && forall t :: 0 <= t < i ==> MadeThere(ws[t], es[t]).None?
    ensures !LastMade(ws, es, i, k)
  {
    hide MadeThere;
  }

  /** A record from before the first call does not hold what that or a later call has made. */
  lemma NeverHeld(ws: seq<Pair>, es: seq<Event>, j: nat, i: nat)
    requires Run(ws, es) && j <= i <= |es| && ws[j].mine.Some?
    requires forall t :: 0 <= t < i ==> MadeThere(ws[t], es[t]).None? && !UsesThere(ws[t], es[t])
    ensures ws[i].There().Some? ==> ws[i].There().value.their != ws[j].mine.value
  {
    hide Init, Next, MadeThere, UsesThere, Pair.There;
    var c := CallBefore(ws, es, j);
    assert New(ws[c], es[c].random);
    hide Enabled;
    ThereStays(ws, es, c, i);
  }

  // ---------------------------------------------------------------------------
  // When success is agreement
  // ---------------------------------------------------------------------------

  /** The handshake of the latest call. */
  predicate Own(w: Pair, e: History.Event) {
    e.Handshake? && e.preimage == w.token && HandshakeInit.FromBytes(w.request) == Ok(e.init)
  }

  /** This step redeems the token's invite or, in the acceptor's name, another one: only the call's handshake does. */
  predicate OwnRedeems(w: Pair, e: Event) {
    e.AtInviter? && e.event.Handshake? && e.event.preimage in w.inviter.records.invites ==>
      (e.event.preimage == w.token || Id(e.event.init.senderId) == w.acceptorId ==> Own(w, e.event))
  }

  /** Nobody else has the token, and nobody else redeems an invite of this inviter in the acceptor's name. */
  ghost predicate OwnHandshakes(ws: seq<Pair>, es: seq<Event>)
    requires |ws| == |es| + 1
  {
    forall t :: 0 <= t < |es| ==> OwnRedeems(ws[t], es[t])
  }

  /** Only the inviter's session acknowledges messages under the token, and nobody loads a response for it. */
  predicate NothingForeign(es: seq<Event>) {
    forall t :: 0 <= t < |es| ==> !es[t].Foreign?
  }

  predicate CalledOnce(es: seq<Event>) {
    forall s, t :: 0 <= s < t < |es| ==> !(es[s].Call? && es[t].Call?)
  }

  /** Apart from handshakes, the inviter makes no new record of the acceptor, and uses none. */
  predicate SparesThere(w: Pair, e: Event) {
    e.AtInviter? && !e.event.Handshake? ==> Made(w.inviter, e.event, w.acceptorId).None? && !Uses(e.event, w.acceptorId)
  }

  /** Neither node uses its record of the other or, by other calls of `pair` or handshakes at the acceptor, makes one. */
  ghost predicate OthersElsewhere(ws: seq<Pair>, es: seq<Event>)
    requires |ws| == |es| + 1
  {
    forall t :: 0 <= t < |es| ==> SparesThere(ws[t], es[t]) && SparesHere(ws[t], es[t])
  }

  /** Whoever redeemed the invite, it was this call. */
  predicate ByThisCall(w: Pair) {
    w.redeemed.Some? ==> w.mine.Some? && w.There() == Some(Hold(w.mine.value, w.redeemed.value.given))
  }

  /** The call's own handshake says who calls, and the preimage made for the call. */
  lemma OwnFields(w: Pair, e: History.Event)
    requires Own(w, e) && AcceptorSide(w)
    ensures w.mine == Some(Preimage(e.init.preimageForPeer)) && Id(e.init.senderId) == w.acceptorId
  {
    if w.mine.Some? {
      var url :| w.request == HandshakeInit(w.acceptorId.bytes, w.mine.value.bytes, url).ToBytes();
      InitFields(HandshakeInit(w.acceptorId.bytes, w.mine.value.bytes, url), e.init);
    }
    hide HandshakeInit.ToBytes;
  }

  lemma HandshakeByThisCall(w: Pair, e: Event)
    requires e.AtInviter? && e.event.Handshake? && Enabled(w, e) && Inv(w) && OwnRedeems(w, e) && ByThisCall(w)
    ensures ByThisCall(Next(w, e))
  {
    ThereStep(w, e);
    if Own(w, e.event) {
      OwnFields(w, e.event);
    }
    hide Own, AcceptorSide, Ownership.Inv, Truthful, History.Next, History.Enabled, Reply, Pair.There;
  }

  lemma ByThisCallStep(w: Pair, e: Event)
    requires Enabled(w, e) && Inv(w) && OwnRedeems(w, e) && SparesThere(w, e) && ByThisCall(w)
    requires e.Call? ==> w.mine.None?
    ensures ByThisCall(Next(w, e))
  {
    if e.AtInviter? && e.event.Handshake? {
      HandshakeByThisCall(w, e);
    } else {
      ThereStep(w, e);
      MineStep(w, e);
      hide Inv, Made, History.Next, History.Enabled, Acceptance, HandshakeInit.ToBytes, Pair.There;
    }
  }

  lemma {:induction false} AlwaysByThisCall(ws: seq<Pair>, es: seq<Event>, i: nat)
    requires Run(ws, es) && i <= |es| && OwnHandshakes(ws, es) && CalledOnce(es) && OthersElsewhere(ws, es)
    ensures ByThisCall(ws[i])
    decreases i
  {
    hide Next, Enabled, Inv, OwnRedeems, SparesThere, SparesHere, ByThisCall;
    if i > 0 {
      AlwaysByThisCall(ws, es, i - 1);
      RunKeepsInv(ws, es, i - 1);
      if es[i - 1].Call? && ws[i - 1].mine.Some? {
        var c := CallBefore(ws, es, i - 1);
        assert false;
      }
      ByThisCallStep(ws[i - 1], es[i - 1]);
    } else {
      NotYet(ws[0]);
    }
  }

  lemma NotYet(w: Pair)
    requires Init(w)
    ensures ByThisCall(w)
  {
    hide History.Reachable;
  }

  /** The answer with which the latest call has succeeded was acknowledged, or loaded. */
  lemma {:induction false} LastSuccess(ws: seq<Pair>, es: seq<Event>, i: nat) returns (j: nat)
    requires Run(ws, es) && i <= |es| && ws[i].returned.Some? && ws[i].returned.value.Paired?
    ensures j < i && Succeeds(es[j]) && ws[i].returned == Some(Paired(es[j].reply)) && ws[j].mine == ws[i].mine
    ensures forall t :: j < t < i ==> !Succeeds(es[t])
    ensures es[j].reply in ws[i].replies + ws[i].foreign
    decreases i
  {
    hide Next, Enabled, Succeeds;
    if i > 0 {
      ReturnedStep(ws[i - 1], es[i - 1]);
      MineStep(ws[i - 1], es[i - 1]);
      if Succeeds(es[i - 1]) {
        j := i - 1;
      } else {
        j := LastSuccess(ws, es, i - 1);
      }
    }
  }

  lemma ReturnedStep(w: Pair, e: Event)
    requires Enabled(w, e)
    ensures var w' := Next(w, e);
            && w.replies <= w'.replies && w.foreign <= w'.foreign
            && (Succeeds(e) ==> w'.returned == Some(Paired(e.reply)) && e.reply in w'.replies + w'.foreign && !e.Call?)
            && (w'.returned.Some? && w'.returned.value.Paired? && !Succeeds(e) ==> w'.returned == w.returned && !e.Call?)
  {
    hide History.Next, History.Enabled, Acceptance, HandshakeInit.ToBytes;
  }

  lemma {:induction false} NoForeignReply(ws: seq<Pair>, es: seq<Event>, i: nat)
    requires Run(ws, es) && i <= |es| && NothingForeign(es)
    ensures ws[i].foreign == {}
    decreases i
  {
    if i > 0 {
      NoForeignReply(ws, es, i - 1);
      hide History.Next, History.Enabled, HandshakeInit.ToBytes, Acceptance;
    }
  }

  /**
   * Success is agreement if there is one call, its handshake is the only one to redeem the token's invite, or
   * any invite in the acceptor's name, sessions of the relay acknowledge only what was delivered to them,
   * and the two nodes do nothing else with each other.
   */
  lemma UnsharedTokenAgrees(ws: seq<Pair>, es: seq<Event>, i: nat)
    requires Run(ws, es) && i <= |es| && ws[i].returned.Some? && ws[i].returned.value.Paired?
    requires OwnHandshakes(ws, es) && NothingForeign(es) && CalledOnce(es) && OthersElsewhere(ws, es)
    ensures Agreed(ws[i]) && ws[i].token !in ws[i].inviter.records.invites
  {
    AlwaysByThisCall(ws, es, i);
    NoForeignReply(ws, es, i);
    var j := LastSuccess(ws, es, i);
    RunKeepsInv(ws, es, i);
    OwnAnswer(ws[i], es[j]);
    RunKeepsInv(ws, es, j);
    assert Enabled(ws[j], es[j]);
    hide Init, Next, Enabled, Inv, InviterSide, SparesThere, SparesHere, OwnHandshakes, NothingForeign, CalledOnce,
         Pair.There, Pair.Here, Acceptance;
    SuccessRecords(ws[j], es[j]);
    HereStays(ws, es, j + 1, i);
  }

  // ---------------------------------------------------------------------------
  // And when it is not
  // ---------------------------------------------------------------------------

  /** Nobody else has the token. */
  ghost predicate Unshared(ws: seq<Pair>, es: seq<Event>)
    requires |ws| == |es| + 1
  {
    forall t :: 0 <= t < |es| ==> OwnToken(ws[t], es[t])
  }

  predicate OwnToken(w: Pair, e: Event) {
    e.AtInviter? && e.event.Handshake? && e.event.preimage == w.token ==> Own(w, e.event)
  }

  /** What `UnsharedTokenAgrees` asks for, step by step. */
  lemma Extend(ws: seq<Pair>, es: seq<Event>, e: Event) returns (ws': seq<Pair>, es': seq<Event>)
    requires Run(ws, es) && Enabled(ws[|es|], e)
    ensures ws' == ws + [Next(ws[|es|], e)] && es' == es + [e] && Run(ws', es')
    ensures OwnHandshakes(ws, es) && OwnRedeems(ws[|es|], e) ==> OwnHandshakes(ws', es')
    ensures Unshared(ws, es) && OwnToken(ws[|es|], e) ==> Unshared(ws', es')
    ensures OthersElsewhere(ws, es) && SparesThere(ws[|es|], e) && SparesHere(ws[|es|], e) ==> OthersElsewhere(ws', es')
    ensures NothingForeign(es) && !e.Foreign? ==> NothingForeign(es')
    ensures CalledOnce(es) && (e.Call? ==> forall t :: 0 <= t < |es| ==> !es[t].Call?) ==> CalledOnce(es')
  {
    hide Init, Next, Enabled, OwnRedeems, OwnToken, SparesThere, SparesHere;
    ws', es' := ws + [Next(ws[|es|], e)], es + [e];
  }

  lemma Begin(w: Pair) returns (ws: seq<Pair>, es: seq<Event>)
    requires Init(w)
    ensures ws == [w] && es == [] && Run(ws, es)
    ensures OwnHandshakes(ws, es) && OthersElsewhere(ws, es) && NothingForeign(es) && CalledOnce(es) && Unshared(ws, es)
  {
    ws, es := [w], [];
  }

  /** The HANDSHAKE_INIT that this node's call sends, if it knows no relay address. */
  function Greeting(id: Id, mine: Preimage): HandshakeInit {
    HandshakeInit(id.bytes, mine.bytes, [])
  }

  lemma GreetingOf(id: Id, mine: Preimage)
    ensures Id(Greeting(id, mine).senderId) == id && Preimage(Greeting(id, mine).preimageForPeer) == mine
  {}

  function Accepted(random: Preimage): Bytes {
    HandshakeComplete(HANDSHAKE_ACCEPTED, random.bytes, []).ToBytes()
  }

  lemma AcceptedTells(random: Preimage)
    ensures Acceptance(Accepted(random)).Some? && Told(Accepted(random)) == random
  {
    HandshakeCompleteExact(Accepted(random), HandshakeComplete(HANDSHAKE_ACCEPTED, random.bytes, []));
    hide HandshakeComplete.FromBytes, HandshakeComplete.ToBytes;
  }

  lemma CanCall(w: Pair, mine: Preimage, now: nat)
    requires !w.Calling() && New(w, mine)
    ensures Enabled(w, Call("", mine, [], now))
    ensures var w' := Next(w, Call("", mine, [], now));
            && w' == w.(acceptor := w'.acceptor, mine := Some(mine), request := Greeting(w.acceptorId, mine).ToBytes(),
                        returned := None)
            && w'.acceptor.drawn == w.acceptor.drawn + {mine}
  {
    hide HandshakeInit.ToBytes;
  }

  /** A handshake that redeems an invite. */
  lemma CanRedeem(w: Pair, p: Preimage, init: HandshakeInit, random: Preimage, now: nat)
    requires random !in w.inviter.drawn && p in w.inviter.records.invites
    ensures var e := AtInviter(History.Handshake(p, init, random, now), []); var w' := Next(w, e);
            && Enabled(w, e)
            && w' == w.(inviter := w'.inviter, replies := w'.replies, redeemed := w'.redeemed)
            && w'.inviter.drawn == w.inviter.drawn + {random} && w'.inviter.records.invites == w.inviter.records.invites - {p}
            && (Id(init.senderId) == w.acceptorId ==> w'.There() == Some(Hold(Preimage(init.preimageForPeer), random)))
            && (Id(init.senderId) != w.acceptorId ==> w'.There() == w.There())
            && (p == w.token ==> Accepted(random) in w'.replies)
            && (p != w.token ==> w'.replies == w.replies && w'.redeemed == w.redeemed)
  {
    hide HandshakeComplete.ToBytes;
  }

  lemma IsOwn(w: Pair, mine: Preimage, random: Preimage, now: nat)
    requires w.request == Greeting(w.acceptorId, mine).ToBytes()
    ensures Own(w, History.Handshake(w.token, Greeting(w.acceptorId, mine), random, now))
  {
    HandshakeInitExact(w.request, Greeting(w.acceptorId, mine));
    hide HandshakeInit.ToBytes, HandshakeInit.FromBytes;
  }

  /** A call, and the inviter accepts its handshake. */
  lemma CallAccepted(w: Pair, mine: Preimage, random: Preimage, now: nat) returns (e1: Event, e2: Event)
    requires !w.Calling() && New(w, mine) && w.token in w.inviter.records.invites && random !in w.inviter.drawn
    ensures e1 == Call("", mine, [], now)
    ensures e2 == AtInviter(History.Handshake(w.token, Greeting(w.acceptorId, mine), random, now), [])
    ensures Enabled(w, e1) && Enabled(Next(w, e1), e2) && Own(Next(w, e1), e2.event)
    ensures var w' := Next(Next(w, e1), e2);
            && w' == w.(inviter := w'.inviter, acceptor := w'.acceptor, replies := w'.replies, redeemed := w'.redeemed,
                        mine := Some(mine), request := Greeting(w.acceptorId, mine).ToBytes(), returned := None)
            && w'.inviter.drawn == w.inviter.drawn + {random} && w'.acceptor.drawn == w.acceptor.drawn + {mine}
            && w'.inviter.records.invites == w.inviter.records.invites - {w.token}
            && w'.There() == Some(Hold(mine, random)) && Accepted(random) in w'.replies
  {
    e1 := Call("", mine, [], now);
    e2 := AtInviter(History.Handshake(w.token, Greeting(w.acceptorId, mine), random, now), []);
    hide Enabled, Next, New, Own, Accepted, HandshakeInit.ToBytes;
    CanCall(w, mine, now);
    CanRedeem(Next(w, e1), w.token, Greeting(w.acceptorId, mine), random, now);
    IsOwn(Next(w, e1), mine, random, now);
  }

  /** The call gets an answer that does not tell what the inviter has in its record, or for another preimage. */
  lemma EndsIn(ws: seq<Pair>, es: seq<Event>, told: Preimage, now: nat) returns (ws': seq<Pair>, es': seq<Event>)
    requires Run(ws, es) && ws[|es|].Calling() && Accepted(told) in ws[|es|].replies + ws[|es|].foreign
    requires ws[|es|].There() != Some(Hold(ws[|es|].mine.value, told))
    ensures Run(ws', es') && ws'[0] == ws[0] && es' == es + [Answer(Accepted(told), now)]
    ensures ws'[|es'|].returned == Some(Paired(Accepted(told))) && !Agreed(ws'[|es'|])
    ensures ws'[|es'|].request == ws[|es|].request
    ensures OwnHandshakes(ws, es) ==> OwnHandshakes(ws', es')
    ensures Unshared(ws, es) ==> Unshared(ws', es')
    ensures OthersElsewhere(ws, es) ==> OthersElsewhere(ws', es')
    ensures NothingForeign(es) ==> NothingForeign(es')
    ensures CalledOnce(es) ==> CalledOnce(es')
  {
    var e := Answer(Accepted(told), now);
    AcceptedTells(told);
    RunKeepsInv(ws, es, |es|);
    assert Enabled(ws[|es|], e) && Next(ws[|es|], e).request == ws[|es|].request;
    hide Init, Enabled, Next, Accepted, Acceptance, InviterSide, Pair.There, Pair.Here, OwnHandshakes, OthersElsewhere,
         NothingForeign, CalledOnce, Unshared;
    ws', es' := Extend(ws, es, e);
    SuccessRecords(ws[|es|], e);
    ThereStep(ws[|es|], e);
  }

  /**
   * A token that two nodes have: if another handshake comes first, in whatever name, this call can get
   * the answer meant for that, and return successfully without agreement. There is a run of the relay in
   * which just that happens: `relay` has seen two sends, the other HANDSHAKE_INIT and this call's,
   * delivered only the first, and answered both with the inviter's one acknowledgement.
   */
  lemma SharedTokenDisagrees(w: Pair, sender: Id, theirs: Preimage, random: Preimage, mine: Preimage, channel: nat, now: nat)
    returns (ws: seq<Pair>, es: seq<Event>, relay: Relay.State)
    requires Init(w) && random !in w.inviter.drawn && New(w, mine) && (sender != w.acceptorId || theirs != mine)
    ensures Run(ws, es) && ws[0] == w && NothingForeign(es) && CalledOnce(es) && OthersElsewhere(ws, es)
    ensures ws[|es|].returned == Some(Paired(Accepted(random))) && !Agreed(ws[|es|])
    ensures Relay.Reachable(relay) && relay.serials == 1 && relay.calls.Keys == {1, 2}
    ensures relay.calls[1].payload == Greeting(sender, theirs).ToBytes() && relay.calls[2].payload == ws[|es|].request
    ensures relay.calls[1].preimage == w.token == relay.calls[2].preimage
    ensures relay.calls[2].pc == Relay.Returned(SEND_OK, Accepted(random))
    ensures relay.acks == map[0 := Relay.Ack(channel, 1, Accepted(random), Relay.Finished)]
  {
    assert !w.Calling() && w.token in w.inviter.records.invites;
    assert w.There() != Some(Hold(mine, random));
    hide Init, Enabled, Next, Run, OwnHandshakes, OthersElsewhere, NothingForeign, CalledOnce, Unshared, New, Accepted,
         HandshakeInit.ToBytes, Relay.Reachable, Pair.There, Greeting;
    var e1, e2 := Call("", mine, [], now), AtInviter(History.Handshake(w.token, Greeting(sender, theirs), random, now), []);
    ws, es := Begin(w);
    GreetingOf(sender, theirs);
    CanCall(w, mine, now);
    ws, es := Extend(ws, es, e1);
    var w1 := ws[1];
    CanRedeem(w1, w.token, Greeting(sender, theirs), random, now);
    ws, es := Extend(ws, es, e2);
    ws, es := EndsIn(ws, es, random, now);
    relay := Schedules.CacheAnswersBoth(w.inviterId, w.token, channel, Greeting(sender, theirs).ToBytes(), ws[|es|].request,
                                        Accepted(random));
  }

  /** A call whose handshake the inviter has accepted, and which is waiting for the answer. */
  lemma Accepts(w: Pair, mine: Preimage, random: Preimage, now: nat) returns (ws: seq<Pair>, es: seq<Event>)
    requires Init(w) && random !in w.inviter.drawn && New(w, mine)
    ensures Run(ws, es) && |es| == 2 && ws[0] == w
    ensures OwnHandshakes(ws, es) && OthersElsewhere(ws, es) && NothingForeign(es) && CalledOnce(es) && Unshared(ws, es)
    ensures var w' := ws[2];
            && w' == w.(inviter := w'.inviter, acceptor := w'.acceptor, replies := w'.replies, redeemed := w'.redeemed,
                        mine := Some(mine), request := Greeting(w.acceptorId, mine).ToBytes())
            && w'.inviter.drawn == w.inviter.drawn + {random} && w'.acceptor.drawn == w.acceptor.drawn + {mine}
            && w'.There() == Some(Hold(mine, random)) && Accepted(random) in w'.replies
  {
    ws, es := Begin(w);
    assert !w.Calling() && w.token in w.inviter.records.invites && w.returned.None?;
    hide Init, Enabled, Next, Run, OwnHandshakes, OthersElsewhere, NothingForeign, CalledOnce, Unshared, New, Own, Accepted,
         HandshakeInit.ToBytes, Pair.There, Pair.Calling;
    var e1, e2 := CallAccepted(w, mine, random, now);
    ws, es := Extend(ws, es, e1);
    ws, es := Extend(ws, es, e2);
  }

  /**
   * A token that one node has, whose handshake redeems the invite: if somebody with another invite of
   * the same inviter redeems that in the acceptor's name before the answer comes, the call returns
   * successfully without agreement, whatever preimage that handshake carries.
   */
  lemma SpoofedSenderDisagrees(w: Pair, other: Preimage, theirs: Preimage, random: Preimage, issued: Preimage, mine: Preimage,
                               now: nat)
    returns (ws: seq<Pair>, es: seq<Event>)
    requires Init(w) && New(w, mine)
    requires other !in w.inviter.drawn && random !in w.inviter.drawn && issued !in w.inviter.drawn
    requires other != random && other != issued && random != issued
    ensures Run(ws, es) && ws[0] == w && Unshared(ws, es)
    ensures NothingForeign(es) && CalledOnce(es) && OthersElsewhere(ws, es)
    ensures ws[|es|].returned == Some(Paired(Accepted(random))) && !Agreed(ws[|es|])
  {
    ws, es := Accepts(w, mine, random, now);
    var invite := History.LocalInvite("", Reader, other, now);
    CanInvite(ws[2], other, now);
    TokenDrawn(w);
    hide Init, Enabled, Next, Run, OwnHandshakes, OthersElsewhere, NothingForeign, CalledOnce, Unshared, New, Own, Accepted,
         HandshakeInit.ToBytes, Pair.There;
    ws, es := Extend(ws, es, AtInviter(invite, []));
    CanRedeem(ws[3], other, Greeting(w.acceptorId, theirs), issued, now);
    ws, es := Extend(ws, es, AtInviter(History.Handshake(other, Greeting(w.acceptorId, theirs), issued, now), []));
    ws, es := EndsIn(ws, es, random, now);
  }

  lemma CanInvite(w: Pair, other: Preimage, now: nat)
    requires other !in w.inviter.drawn
    ensures var e := AtInviter(History.LocalInvite("", Reader, other, now), []); var w' := Next(w, e);
            && Enabled(w, e) && w' == w.(inviter := w'.inviter) && w'.inviter.drawn == w.inviter.drawn + {other}
            && other in w'.inviter.records.invites && w'.There() == w.There()
  {}

  lemma TokenDrawn(w: Pair)
    requires Init(w)
    ensures w.token in w.inviter.drawn
  {
    InvAtFirst(w);
  }

  /**
   * A token that one node has, whose handshake redeems the invite: if some other session of the
   * relay acknowledges that handshake's id first, with a HANDSHAKE_COMPLETE of its own, the call
   * returns successfully without agreement. `Schedules.AnyoneMayAnswer` is the relay's part.
   */
  lemma ForgedReplyDisagrees(w: Pair, random: Preimage, mine: Preimage, forged: Preimage, now: nat)
    returns (ws: seq<Pair>, es: seq<Event>)
    requires Init(w) && random !in w.inviter.drawn && New(w, mine) && forged != random
    ensures Run(ws, es) && ws[0] == w && OwnHandshakes(ws, es) && CalledOnce(es) && OthersElsewhere(ws, es)
    ensures ws[|es|].returned == Some(Paired(Accepted(forged))) && !Agreed(ws[|es|])
  {
    ws, es := Accepts(w, mine, random, now);
    var e := Foreign(Accepted(forged));
    assert Enabled(ws[2], e) && Next(ws[2], e) == ws[2].(foreign := ws[2].foreign + {Accepted(forged)});
    hide Init, Enabled, Next, Run, OwnHandshakes, OthersElsewhere, NothingForeign, CalledOnce, Unshared, New, Accepted,
         HandshakeInit.ToBytes;
    ws, es := Extend(ws, es, e);
    ws, es := EndsIn(ws, es, forged, now);
  }

  /**
   * A token that one node has, and two calls with it: the first is given up after its handshake has redeemed
   * the invite. The second gets the answer meant for the first out of the relay's cache, as in
   * `SharedTokenDisagrees`, and returns successfully, but what the inviter holds is of the first.
   */
  lemma CalledTwiceDisagrees(w: Pair, random: Preimage, mine: Preimage, again: Preimage, channel: nat, now: nat)
    returns (ws: seq<Pair>, es: seq<Event>, relay: Relay.State)
    requires Init(w) && random !in w.inviter.drawn && New(w, mine) && New(w, again) && mine != again
    ensures Run(ws, es) && ws[0] == w && OwnHandshakes(ws, es) && NothingForeign(es) && OthersElsewhere(ws, es)
    ensures ws[|es|].returned == Some(Paired(Accepted(random))) && !Agreed(ws[|es|])
    ensures Relay.Reachable(relay) && relay.serials == 1 && relay.calls.Keys == {1, 2}
    ensures relay.calls[1].payload == Greeting(w.acceptorId, mine).ToBytes() && relay.calls[2].payload == ws[|es|].request
    ensures relay.calls[1].preimage == w.token == relay.calls[2].preimage
    ensures relay.calls[2].pc == Relay.Returned(SEND_OK, Accepted(random))
    ensures relay.acks == map[0 := Relay.Ack(channel, 1, Accepted(random), Relay.Finished)]
  {
    ws, es := Accepts(w, mine, random, now);
    assert Enabled(ws[2], Fail) && Next(ws[2], Fail) == ws[2].(returned := Some(Failed));
    var w3 := ws[2].(returned := Some(Failed));
    CanCall(w3, again, now);
    hide Init, Enabled, Next, Run, OwnHandshakes, OthersElsewhere, NothingForeign, Accepted, HandshakeInit.ToBytes,
         Relay.Reachable;
    ws, es := Extend(ws, es, Fail);
    ws, es := Extend(ws, es, Call("", again, [], now));
    ws, es := EndsIn(ws, es, random, now);
    relay := Schedules.CacheAnswersBoth(w.inviterId, w.token, channel, Greeting(w.acceptorId, mine).ToBytes(),
                                        ws[|es|].request, Accepted(random));
  }

  /** The inviter pairs with the acceptor by a token of the acceptor's. */
  lemma CanPair(w: Pair, random: Preimage, told: Preimage, now: nat)
    requires random !in w.inviter.drawn
    ensures var e1 := AtInviter(History.BeginPair(w.acceptorId, told, "", random, now), []);
            var e2 := AtInviter(History.EndPair(w.acceptorId, told, None, now), []);
            && Enabled(w, e1) && Enabled(Next(w, e1), e2)
            && var w' := Next(Next(w, e1), e2);
               && w' == w.(inviter := w'.inviter) && w'.There() == Some(Hold(told, random))
  {}

  /** Success without agreement although everybody else keeps out of it: meanwhile the inviter calls `pair` itself. */
  lemma ReversedDisagrees(w: Pair, random: Preimage, issued: Preimage, told: Preimage, mine: Preimage, now: nat)
    returns (ws: seq<Pair>, es: seq<Event>)
    requires Init(w) && New(w, mine)
    requires random !in w.inviter.drawn && issued !in w.inviter.drawn && issued != random
    ensures Run(ws, es) && ws[0] == w && OwnHandshakes(ws, es) && NothingForeign(es) && CalledOnce(es)
    ensures ws[|es|].returned == Some(Paired(Accepted(random))) && !Agreed(ws[|es|])
  {
    ws, es := Accepts(w, mine, random, now);
    CanPair(ws[2], issued, told, now);
    hide Init, Enabled, Next, Run, OwnHandshakes, OthersElsewhere, NothingForeign, CalledOnce, Unshared, New, Own, Accepted,
         HandshakeInit.ToBytes, Pair.There;
    ws, es := Extend(ws, es, AtInviter(History.BeginPair(w.acceptorId, told, "", issued, now), []));
    ws, es := Extend(ws, es, AtInviter(History.EndPair(w.acceptorId, told, None, now), []));
    ws, es := EndsIn(ws, es, random, now);
  }

  // ---------------------------------------------------------------------------
  // From the pairing on
  // ---------------------------------------------------------------------------

  /** The two nodes, the acceptor as the client, with a relay that has just started. */
  function Ready(w: Pair): System.World
    requires Agreed(w)
  {
    System.World(Relay.START, w.inviterId, w.inviter, w.acceptorId, w.acceptor.records,
                 map[], None, map[], None, [], w.There().value.issued, map[])
  }

  lemma {:induction false} InviterReachable(ws: seq<Pair>, es: seq<Event>, i: nat)
    requires Run(ws, es) && i <= |es|
    ensures History.Reachable(ws[i].inviter)
    decreases i
  {
    if i > 0 {
      InviterReachable(ws, es, i - 1);
      hide History.Reachable, History.Next, History.Enabled, HandshakeInit.ToBytes, DoAnswer;
      InviterMoves(ws[i - 1], es[i - 1]);
    }
  }

  lemma InviterMoves(w: Pair, e: Event)
    requires Enabled(w, e) && History.Reachable(w.inviter)
    ensures History.Reachable(Next(w, e).inviter)
  {
    hide History.Reachable, History.Next, History.Enabled, HandshakeInit.ToBytes, Acceptance;
    if e.AtInviter? {
      History.ReachableStep(w.inviter, e.event);
    }
  }

  /** A pairing that ends in agreement leaves the two nodes as client and device start out. */
  lemma PairedInSync(ws: seq<Pair>, es: seq<Event>, i: nat)
    requires Run(ws, es) && i <= |es| && Agreed(ws[i])
    ensures System.Init(Ready(ws[i]))
  {
    InviterReachable(ws, es, i);
    hide History.Reachable, Run;
  }
}
