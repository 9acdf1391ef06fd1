/**
 * A node over its whole life, driven by any sequence of local calls and incoming messages,
 * from peers, strangers or a relay that lies. Every 32 random bytes it draws are new to it.
 */
module History {
  import opened Types
  import opened Wire
  import opened Device
  import opened Nodes

  /** Who made an invite: the local program, or a command under the `index`-th invite ever made. */
  datatype Origin = Local | By(index: nat) | Unrooted

  datatype Entry = Entry(preimage: Preimage, role: PeerRole, origin: Origin)

  /**
   * The records, and history: all preimages ever drawn and all ever consumed, the log of
   * invites made, the log index of the invite each peer redeemed last, and what became of invites.
   */
  datatype Machine = Machine(
    records: Records,
    drawn: set<Preimage>,
    consumed: set<Preimage>,
    log: seq<Entry>,
    via: map<Id, nat>,
    redeemed: set<Preimage>,
    deleted: set<Preimage>)

  const START := Machine(Records(map[], map[], map[]), {}, {}, [], map[], {}, {})

  datatype Event =
    | LocalInvite(alias: string, role: PeerRole, random: Preimage, now: nat)
    | BeginPair(theirId: Id, theirPreimage: Preimage, alias: string, random: Preimage, now: nat)
    | EndPair(theirId: Id, theirPreimage: Preimage, relay: Option<Text>, now: nat)
    | Handshake(preimage: Preimage, init: HandshakeInit, random: Preimage, now: nat)
    | Command(preimage: Preimage, from: Lookup, req: Option<Request>, pick: Option<Preimage>, draws: Draws, now: nat)
    | Learn(peerId: Id, preimage: Preimage, now: nat)

  ghost predicate Enabled(m: Machine, e: Event) {
    match e
    case LocalInvite(_, _, random, _) => random !in m.drawn
    case BeginPair(_, _, _, random, _) => random !in m.drawn
    case Handshake(_, _, random, _) => random !in m.drawn
    case Command(preimage, from, req, pick, draws, _) =>
      && m.records.LooksUp(preimage, from)
      && draws.invite !in m.drawn && draws.renewal !in m.drawn && draws.invite != draws.renewal
      && (req.Some? && from.FromPeer? ==> GoodPick(m.records, from.peer.role, req.value, pick))
    case _ => true
  }

  function IndexOf(log: seq<Entry>, p: Preimage): (i: nat)
    ensures i <= |log| && (i < |log| ==> log[i].preimage == p)
    ensures i == |log| ==> forall j :: 0 <= j < |log| ==> log[j].preimage != p
  {
    if log == [] then 0
    else if log[0].preimage == p then 0
    else 1 + IndexOf(log[1..], p)
  }

  /** The command comes from a peer with the authority to manage invites. */
  predicate FromOwner(from: Lookup) {
    from.FromPeer? && from.peer.role == Owner
  }

  predicate Creates(from: Lookup, req: Option<Request>) {
    FromOwner(from) && req.Some? && req.value.InviteCreate?
  }

  predicate Deletes(from: Lookup, req: Option<Request>, pick: Option<Preimage>) {
    FromOwner(from) && req.Some? && req.value.InviteDelete? && req.value.prefix.Some? && pick.Some?
  }

  /** This event runs `dispatch_command`. */
  ghost predicate Dispatches(m: Machine, e: Event)
    requires Enabled(m, e)
  {
    e.Command? && CommandOutcome(m.records, e.from, e.preimage, e.req, e.pick, e.draws, e.now).dispatched
  }

  function DoHandshake(m: Machine, preimage: Preimage, init: HandshakeInit, random: Preimage, now: nat): Machine {
    var id := Id(init.senderId);
    match m.records.CompleteAsInviter(preimage, id, Preimage(init.preimageForPeer), init.relayUrl, random, now)
    case None => m
    case Some(records) =>
      m.(records := records, drawn := m.drawn + {random}, consumed := m.consumed + {preimage},
         redeemed := m.redeemed + {preimage}, via := m.via[id := IndexOf(m.log, preimage)])
  }

  /** What an invite made by this peer goes back to. */
  function OriginOf(m: Machine, id: Id): Origin {
    if id in m.via then By(m.via[id]) else Unrooted
  }

  function DoCommand(m: Machine, preimage: Preimage, from: Lookup, req: Option<Request>, pick: Option<Preimage>,
                     draws: Draws, now: nat): Machine
  {
    var h := CommandOutcome(m.records, from, preimage, req, pick, draws, now);
    var created := Creates(from, req);
    m.(records := h.records,
       drawn := m.drawn + (if created then {draws.invite} else {}) + (if h.renewed.Some? then {draws.renewal} else {}),
       consumed := m.consumed + (if h.renewed.Some? then {preimage} else {}),
       log := m.log + (if created then [Entry(draws.invite, req.value.role, OriginOf(m, from.id))] else []),
       deleted := m.deleted + (if Deletes(from, req, pick) then {pick.value} else {}))
  }

  function DoEndPair(m: Machine, theirId: Id, theirPreimage: Preimage, relay: Option<Text>, now: nat): Machine {
    match m.records.CompleteAsAcceptor(theirId, theirPreimage, relay, now)
    case None => m
    case Some(records) => m.(records := records, via := m.via - {theirId})
  }

  ghost function Next(m: Machine, e: Event): Machine
    requires Enabled(m, e)
  {
    match e
    case LocalInvite(alias, role, random, now) =>
      m.(records := m.records.CreateInvite(alias, role, random, now), drawn := m.drawn + {random},
         log := m.log + [Entry(random, role, Local)])
    case BeginPair(id, p, alias, random, now) =>
      m.(records := m.records.AcceptInvite(id, p, alias, random, now), drawn := m.drawn + {random})
    case EndPair(id, p, relay, now) => DoEndPair(m, id, p, relay, now)
    case Handshake(p, init, random, now) => DoHandshake(m, p, init, random, now)
    case Command(p, from, req, pick, draws, now) => DoCommand(m, p, from, req, pick, draws, now)
    case Learn(id, p, now) => m.(records := m.records.UpdatePeerPreimage(id, p, now))
  }

  ghost predicate Run(ms: seq<Machine>, es: seq<Event>) {
    && |ms| == |es| + 1 && ms[0] == START
    && forall i :: 0 <= i < |es| ==> Enabled(ms[i], es[i]) && ms[i + 1] == Next(ms[i], es[i])
  }

  ghost predicate Reachable(m: Machine) {
    exists ms, es :: Run(ms, es) && m == ms[|es|]
  }

  /** Whatever the node does with a delivered message, with fresh randomness, is a step of this machine. */
  lemma ServedIsStep(m: Machine, msg: Message, c: Chance, render: Response -> Bytes, relay: Text, r': Records,
                     frames: seq<OutFrame>)
    returns (e: Event)
    requires Serves(m.records, msg, c, render, relay, r', frames)
    requires c.draws.invite !in m.drawn && c.draws.renewal !in m.drawn && c.draws.invite != c.draws.renewal
    ensures Enabled(m, e) && Next(m, e).records == r'
    ensures Dispatches(m, e) ==> e.preimage == msg.preimage && !IsHandshake(msg.payload)
  {
    if IsHandshake(msg.payload) {
      e := Handshake(msg.preimage, HandshakeInit.FromBytes(msg.payload).value, c.draws.renewal, c.now);
    } else {
      var from, pick :| ServesCommand(m.records, msg, c, render, from, pick, r', frames);
      e := Command(msg.preimage, from, c.req, pick, c.draws, c.now);
    }
  }

  lemma ReachableStep(m: Machine, e: Event)
    requires Reachable(m) && Enabled(m, e)
    ensures Reachable(Next(m, e))
  {
    hide Enabled, Next;
    var ms, es :| Run(ms, es) && m == ms[|es|];
    assert Run(ms + [Next(m, e)], es + [e]);
    assert (ms + [Next(m, e)])[|es + [e]|] == Next(m, e);
  }
}
