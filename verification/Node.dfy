/**
 * A node serving its relay connection: what it does with a delivered message, command by
 * command. JSON is left to the caller: a command arrives parsed, or as None when its text
 * is not a valid request, and the serialised response is a parameter.
 */
module Nodes {
  import opened Types
  import opened Wire
  import opened Device

  datatype Request =
    | NodeInfo
    | InviteCreate(alias: string, role: PeerRole)
    | InviteList
    | InviteDelete(prefix: Option<Bytes>)
    | PeersList
    | Custom(cmd: string)

  datatype Response =
    | Info | Token(preimage: Preimage) | Invites(preimages: set<Preimage>) | Deleted | Peers(ids: set<Id>)
    | FromHandler
    | Denied | BadId | NoSuchInvite | InvalidRequest | Unauthorized

  /** What a node writes to its connection. */
  datatype OutFrame = UpdateFrame(commits: seq<Commit>) | AckFrame(msgId: u32, payload: Bytes)

  /** Randomness that a command may draw: for an invite it creates, and for the renewal. */
  datatype Draws = Draws(invite: Preimage, renewal: Preimage)

  /** The first bytes of the preimage are these. A longer prefix than a preimage matches nothing. */
  predicate HasPrefix(p: Preimage, prefix: Bytes) {
    |prefix| <= 32 && p.bytes[..|prefix|] == prefix
  }

  /** A choice that some order of walking the invites makes. */
  predicate Picks(invites: map<Preimage, InviteRecord>, prefix: Bytes, pick: Option<Preimage>) {
    match pick
    case Some(p) => p in invites && HasPrefix(p, prefix)
    case None => forall p :: p in invites ==> !HasPrefix(p, prefix)
  }

  predicate GoodPick(r: Records, role: PeerRole, req: Request, pick: Option<Preimage>) {
    role == Owner && req.InviteDelete? && req.prefix.Some? ==> Picks(r.invites, req.prefix.value, pick)
  }

  function Dispatch(r: Records, role: PeerRole, req: Request, pick: Option<Preimage>, random: Preimage, now: nat)
    : (Records, Response)
  {
    match req
    case NodeInfo => (r, Info)
    case InviteCreate(alias, newRole) =>
      if role != Owner then (r, Denied)
      else (r.CreateInvite(alias, newRole, random, now), Token(random))
    case InviteList => if role != Owner then (r, Denied) else (r, Invites(r.invites.Keys))
    case InviteDelete(prefix) =>
      if role != Owner then (r, Denied)
      else if prefix.None? then (r, BadId)
      else if pick.None? then (r, NoSuchInvite)
      else (r.DeleteInvite(pick.value), Deleted)
    case PeersList => if role != Owner then (r, Denied) else (r, Peers(r.peers.Keys))
    case Custom(_) => (r, FromHandler)
  }

  /** Without an owner's authority a command neither manages the node nor learns about its invites and peers. */
  lemma OnlyOwnersManage(r: Records, role: PeerRole, req: Request, pick: Option<Preimage>, random: Preimage, now: nat)
    requires role != Owner
    ensures var (r', response) := Dispatch(r, role, req, pick, random, now);
            r' == r && response == match req case NodeInfo => Info case Custom(_) => FromHandler case _ => Denied
  {}

  /** What handling one command comes to. `renewed` is the preimage appended to the response. */
  datatype Handled = Handled(records: Records, response: Response, renewed: Option<Preimage>, dispatched: bool)

  function CommandOutcome(r: Records, from: Lookup, preimage: Preimage, req: Option<Request>, pick: Option<Preimage>,
                         draws: Draws, now: nat): Handled
  {
    if !from.FromPeer? then Handled(r, Unauthorized, None, false)
    else
      var (r1, response) :=
        if req.Some? then Dispatch(r, from.peer.role, req.value, pick, draws.invite, now) else (r, InvalidRequest);
      match r1.ConsumeAndRenew(from.id, preimage, draws.renewal, now)
      case Some(r2) => Handled(r2, response, Some(draws.renewal), req.Some?)
      case None => Handled(r1, response, None, req.Some?)
  }

  /** The frames that answer a command: the renewed commit goes out before the acknowledgement. */
  function CommandFrames(msgId: u32, h: Handled, doc: Bytes): seq<OutFrame> {
    match h.renewed
    case Some(p) => [UpdateFrame([Sha256(p)]), AckFrame(msgId, doc + p.bytes)]
    case None => [AckFrame(msgId, doc)]
  }

  /** Handling a HANDSHAKE_INIT. Here the acknowledgement goes out before the renewed commit. */
  function HandshakeOutcome(r: Records, msgId: u32, preimage: Preimage, init: HandshakeInit, relay: Text,
                           random: Preimage, now: nat): (Records, seq<OutFrame>)
  {
    match r.CompleteAsInviter(preimage, Id(init.senderId), Preimage(init.preimageForPeer), init.relayUrl, random, now)
    case Some(r') =>
      (r', [AckFrame(msgId, HandshakeComplete(HANDSHAKE_ACCEPTED, random.bytes, relay).ToBytes()),
            UpdateFrame([Sha256(random)])])
    case None =>
      (r, [AckFrame(msgId, HandshakeComplete(HANDSHAKE_REJECTED, seq(32, _ => 0), []).ToBytes())])
  }

  predicate IsHandshake(payload: Bytes) {
    payload != [] && payload[0] == DEV_HANDSHAKE_INIT
  }

  // ---------------------------------------------------------------------------
  // The client's side
  // ---------------------------------------------------------------------------

  /**
   * What of a response a client learns: `json` tells which texts parse as a response. If the
   * whole text does, there is no preimage in it; otherwise the last 32 bytes are one, provided that the
   * rest parses.
   */
  function Learned(json: Bytes -> bool, payload: Bytes): Option<Preimage> {
    if |payload| <= 32 || json(payload) || !json(payload[..|payload| - 32]) then None
    else Some(Preimage(payload[|payload| - 32..]))
  }

  /** The HANDSHAKE_COMPLETE of an accepted pairing. */
  function Acceptance(payload: Bytes): Option<HandshakeComplete> {
    match HandshakeComplete.FromBytes(payload)
    case Ok(complete) => if complete.status == HANDSHAKE_ACCEPTED then Some(complete) else None
    case Err(_) => None
  }

  function RelayOf(complete: HandshakeComplete): Option<Text> {
    if complete.relayUrl == [] then None else Some(complete.relayUrl)
  }

  // ---------------------------------------------------------------------------
  // Serving a connection
  // ---------------------------------------------------------------------------

  /** A delivered message. */
  datatype Message = Message(msgId: u32, preimage: Preimage, payload: Bytes)

  /** What JSON, chance and the clock contribute to handling one. */
  datatype Chance = Chance(req: Option<Request>, draws: Draws, now: nat)

  /** Handling this message may take the records from `r` to `r'` and write these frames. */
  ghost predicate Serves(r: Records, msg: Message, c: Chance, render: Response -> Bytes, relay: Text,
                         r': Records, frames: seq<OutFrame>)
  {
    if IsHandshake(msg.payload) then
      match HandshakeInit.FromBytes(msg.payload)
      case Ok(init) => (r', frames) == HandshakeOutcome(r, msg.msgId, msg.preimage, init, relay, c.draws.renewal, c.now)
      case Err(_) => false
    else exists from, pick :: ServesCommand(r, msg, c, render, from, pick, r', frames)
  }

  ghost predicate ServesCommand(r: Records, msg: Message, c: Chance, render: Response -> Bytes,
                                from: Lookup, pick: Option<Preimage>, r': Records, frames: seq<OutFrame>)
  {
    && r.LooksUp(msg.preimage, from)
    && (c.req.Some? && from.FromPeer? ==> GoodPick(r, from.peer.role, c.req.value, pick))
    && var h := CommandOutcome(r, from, msg.preimage, c.req, pick, c.draws, c.now);
       r' == h.records && frames == CommandFrames(msg.msgId, h, render(h.response))
  }

  function Flat(outs: seq<seq<OutFrame>>): seq<OutFrame> {
    if outs == [] then [] else Flat(outs[..|outs| - 1]) + outs[|outs| - 1]
  }

  /** What has been served so far: the records before and after each message, and the frames that answered it. */
  ghost predicate Served(msgs: seq<Message>, chances: seq<Chance>, render: Response -> Bytes, relay: Text,
                         trace: seq<Records>, outs: seq<seq<OutFrame>>)
  {
    && |outs| <= |msgs| && |chances| == |msgs| && |trace| == |outs| + 1
    && forall i :: 0 <= i < |outs| ==> Serves(trace[i], msgs[i], chances[i], render, relay, trace[i + 1], outs[i])
  }

  lemma ServedMore(msgs: seq<Message>, chances: seq<Chance>, render: Response -> Bytes, relay: Text,
                   trace: seq<Records>, outs: seq<seq<OutFrame>>, r': Records, frames: seq<OutFrame>)
    requires Served(msgs, chances, render, relay, trace, outs) && |outs| < |msgs|
    requires Serves(trace[|outs|], msgs[|outs|], chances[|outs|], render, relay, r', frames)
    ensures Served(msgs, chances, render, relay, trace + [r'], outs + [frames])
    ensures Flat(outs + [frames]) == Flat(outs) + frames
  {
    hide Serves;
    assert (outs + [frames])[..|outs|] == outs;
  }

  class Node {
    const state: DeviceState
    var sent: seq<OutFrame>

    constructor (state: DeviceState)
      ensures this.state == state && sent == []
    {
      this.state := state;
      sent := [];
    }

    /** Looks for an invite by prefix, in an order that the map chooses. */
    method FindInvite(prefix: Bytes) returns (pick: Option<Preimage>)
      ensures Picks(state.invites, prefix, pick)
    {
      var todo := state.invites.Keys;
      while todo != {}
        invariant todo <= state.invites.Keys
        invariant forall p :: p in state.invites && p !in todo ==> !HasPrefix(p, prefix)
        decreases todo
      {
        var p :| p in todo;
        if HasPrefix(p, prefix) {
          return Some(p);
        }
        todo := todo - {p};
      }
      return None;
    }

    method DispatchCommand(role: PeerRole, req: Request, random: Preimage, now: nat)
      returns (response: Response, ghost pick: Option<Preimage>)
      modifies state
      ensures GoodPick(old(state.Value()), role, req, pick)
      ensures (state.Value(), response) == Dispatch(old(state.Value()), role, req, pick, random, now)
    {
      pick := None;
      match req {
        case NodeInfo => response := Info;
        case InviteCreate(alias, newRole) =>
          if role != Owner {
            return Denied, None;
          }
          var _, _ := state.CreateInvite(alias, newRole, random, now);
          response := Token(random);
        case InviteList =>
          response := if role != Owner then Denied else Invites(state.invites.Keys);
        case InviteDelete(prefix) =>
          if role != Owner {
            return Denied, None;
          }
          if prefix.None? {
            return BadId, None;
          }
          var found := FindInvite(prefix.value);
          pick := found;
          if found.None? {
            return NoSuchInvite, pick;
          }
          state.RemoveInvite(found.value);
          response := Deleted;
        case PeersList =>
          response := if role != Owner then Denied else Peers(state.peers.Keys);
        case Custom(_) => response := FromHandler;
      }
    }

    method HandleCommand(msgId: u32, preimage: Preimage, req: Option<Request>, render: Response -> Bytes,
                         draws: Draws, now: nat)
      returns (ghost from: Lookup, ghost pick: Option<Preimage>)
      modifies this, state
      ensures old(state.Value()).LooksUp(preimage, from)
      ensures req.Some? && from.FromPeer? ==> GoodPick(old(state.Value()), from.peer.role, req.value, pick)
      ensures var h := CommandOutcome(old(state.Value()), from, preimage, req, pick, draws, now);
              && state.Value() == h.records
              && sent == old(sent) + CommandFrames(msgId, h, render(h.response))
    {
      pick := None;
      var found := state.LookupPreimage(preimage);
      from := found;
      if !found.FromPeer? {
        sent := sent + [AckFrame(msgId, render(Unauthorized))];
        return;
      }
      var response := InvalidRequest;
      if req.Some? {
        response, pick := DispatchCommand(found.peer.role, req.value, draws.invite, now);
      }
      var bytes := render(response);
      var renewed := state.ConsumeAndRenewPreimage(found.id, preimage, draws.renewal, now);
      if renewed.Some? {
        bytes := bytes + renewed.value.0.bytes;
        sent := sent + [UpdateFrame([renewed.value.1])];
      }
      sent := sent + [AckFrame(msgId, bytes)];
    }

    /** A malformed HANDSHAKE_INIT ends the connection without an answer. */
    method HandleHandshake(msgId: u32, preimage: Preimage, payload: Bytes, relay: Text, random: Preimage, now: nat)
      returns (r: Result<()>)
      modifies this, state
      ensures match HandshakeInit.FromBytes(payload)
              case Err(e) => r == Err(e) && state.Value() == old(state.Value()) && sent == old(sent)
              case Ok(init) =>
                && r == Ok(())
                && var (records, frames) := HandshakeOutcome(old(state.Value()), msgId, preimage, init, relay, random, now);
                   state.Value() == records && sent == old(sent) + frames
    {
      var parsed := HandshakeInit.FromBytes(payload);
      if parsed.Err? {
        return Err(parsed.error);
      }
      var init := parsed.value;
      var renewed := state.CompleteHandshakeAsInviter(preimage, Id(init.senderId), Preimage(init.preimageForPeer),
                                                      init.relayUrl, random, now);
      if renewed.Some? {
        var complete := HandshakeComplete(HANDSHAKE_ACCEPTED, renewed.value.0.bytes, relay);
        sent := sent + [AckFrame(msgId, complete.ToBytes())];
        sent := sent + [UpdateFrame([renewed.value.1])];
      } else {
        var complete := HandshakeComplete(HANDSHAKE_REJECTED, seq(32, _ => 0), []);
        sent := sent + [AckFrame(msgId, complete.ToBytes())];
      }
      return Ok(());
    }

    /** Serves messages in the order of their arrival until a handshake does not parse. */
    method Run(msgs: seq<Message>, chances: seq<Chance>, render: Response -> Bytes, relay: Text)
      returns (handled: nat, ghost trace: seq<Records>, ghost outs: seq<seq<OutFrame>>)
      requires |chances| == |msgs|
      modifies this, state
      ensures |outs| == handled && Served(msgs, chances, render, relay, trace, outs)
      ensures trace[0] == old(state.Value()) && trace[handled] == state.Value() && sent == old(sent) + Flat(outs)
      ensures handled < |msgs| ==> IsHandshake(msgs[handled].payload) && HandshakeInit.FromBytes(msgs[handled].payload).Err?
    {
      hide CommandOutcome, HandshakeOutcome, CommandFrames, Records.LooksUp, HandshakeInit.FromBytes, GoodPick;
      handled, trace, outs := 0, [state.Value()], [];
      while handled < |msgs|
        invariant |outs| == handled && Served(msgs, chances, render, relay, trace, outs)
        invariant trace[0] == old(state.Value()) && trace[handled] == state.Value() && sent == old(sent) + Flat(outs)
      {
        var msg, c := msgs[handled], chances[handled];
        ghost var before := sent;
        if IsHandshake(msg.payload) {
          var r := HandleHandshake(msg.msgId, msg.preimage, msg.payload, relay, c.draws.renewal, c.now);
          if r.Err? {
            return;
          }
        } else {
          ghost var from, pick := HandleCommand(msg.msgId, msg.preimage, c.req, render, c.draws, c.now);
          assert ServesCommand(trace[handled], msg, c, render, from, pick, state.Value(), sent[|before|..]);
        }
        ghost var frames := sent[|before|..];
        ServedMore(msgs, chances, render, relay, trace, outs, state.Value(), frames);
        trace, outs, handled := trace + [state.Value()], outs + [frames], handled + 1;
      }
    }

    /** What the client does with the result of a send: it may learn the peer's next preimage. */
    method TakeResult(peerId: Id, status: byte, payload: Bytes, json: Bytes -> bool, now: nat) returns (parsed: bool)
      modifies state
      ensures parsed <==> status == SEND_OK && (json(payload) || Learned(json, payload).Some?)
      ensures match if status == SEND_OK then Learned(json, payload) else None
              case Some(p) => state.Value() == old(state.Value()).UpdatePeerPreimage(peerId, p, now)
              case None => state.Value() == old(state.Value())
    {
      if status != SEND_OK {
        return false;
      }
      var head, next := payload, None;
      if |payload| > 32 && !json(payload) {
        var split := |payload| - 32;
        head, next := payload[..split], Some(Preimage(payload[split..]));
      }
      if !json(head) {
        return false;
      }
      if next.Some? {
        state.UpdatePeerPreimage(peerId, next.value, now);
      }
      return true;
    }

    /** The first half of `pair`: remembers the invite, and makes the HANDSHAKE_INIT. */
    method BeginPair(myId: Id, theirId: Id, theirPreimage: Preimage, alias: string, random: Preimage, relay: Text,
                     now: nat)
      returns (request: Bytes)
      modifies state
      ensures state.Value() == old(state.Value()).AcceptInvite(theirId, theirPreimage, alias, random, now)
      ensures request == HandshakeInit(myId.bytes, random.bytes, relay).ToBytes()
    {
      var mine, _ := state.AcceptInvite(theirId, theirPreimage, alias, random, now);
      return HandshakeInit(myId.bytes, mine.bytes, relay).ToBytes();
    }

    /** The second half of `pair`, which succeeds on an acceptance even if the pending record is gone by then. */
    method EndPair(theirId: Id, status: byte, payload: Bytes, now: nat) returns (ok: bool)
      modifies state
      ensures ok <==> status == SEND_OK && Acceptance(payload).Some?
      ensures var r := old(state.Value());
              state.Value() ==
                if !ok then r
                else match r.CompleteAsAcceptor(theirId, Preimage(Acceptance(payload).value.preimageForPeer),
                                                RelayOf(Acceptance(payload).value), now)
                  case Some(r') => r'
                  case None => r
    {
      if status != SEND_OK {
        return false;
      }
      var parsed := HandshakeComplete.FromBytes(payload);
      if parsed.Err? || parsed.value.status != HANDSHAKE_ACCEPTED {
        return false;
      }
      var complete := parsed.value;
      var relay := if complete.relayUrl == [] then None else Some(complete.relayUrl);
      var _ := state.CompleteHandshakeAsAcceptor(theirId, Preimage(complete.preimageForPeer), relay, now);
      return true;
    }
  }
}
