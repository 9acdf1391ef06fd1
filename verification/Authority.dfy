/**
 * Authority is rooted and invites are single-use: who may manage a node goes back, through
 * invites that owners made, to an invite its own program made, and every invite ever made is
 * open, redeemed or deleted, and only one of these.
 */
module Authority {
  import opened Types
  import opened Wire
  import opened Device
  import opened Nodes
  import opened History
  import Ownership

  function Made(log: seq<Entry>): set<Preimage> {
    set i | 0 <= i < |log| :: log[i].preimage
  }

  ghost predicate Distinct(log: seq<Entry>) {
    forall i, j :: 0 <= i < j < |log| ==> log[i].preimage != log[j].preimage
  }

  /** Every command-made invite was made under an owner invite, redeemed and made before it. */
  ghost predicate Rooted(log: seq<Entry>, redeemed: set<Preimage>) {
    forall i :: 0 <= i < |log| ==>
      match log[i].origin
      case Local => true
      case By(j) => j < i && log[j].role == Owner && log[j].preimage in redeemed
      case Unrooted => false
  }

  /** Open invites have the role they were made with. */
  ghost predicate InviteRoles(log: seq<Entry>, invites: map<Preimage, InviteRecord>) {
    forall i :: 0 <= i < |log| && log[i].preimage in invites ==> invites[log[i].preimage].role == log[i].role
  }

  /** A peer has the role of the invite last redeemed for it, or is a reader. */
  ghost predicate PeerRoles(log: seq<Entry>, via: map<Id, nat>, redeemed: set<Preimage>, peers: map<Id, PeerRecord>) {
    forall id :: id in peers ==>
      if id in via then via[id] < |log| && log[via[id]].role == peers[id].role && log[via[id]].preimage in redeemed
      else peers[id].role == Reader
  }

  ghost predicate Accounted(m: Machine) {
    && m.records.invites.Keys !! m.redeemed !! m.deleted
    && m.records.invites.Keys + m.redeemed + m.deleted == Made(m.log)
  }

  ghost predicate Inv(m: Machine) {
    && Ownership.Inv(m)
    && Distinct(m.log) && Made(m.log) <= m.drawn
    && Rooted(m.log, m.redeemed)
    && InviteRoles(m.log, m.records.invites)
    && PeerRoles(m.log, m.via, m.redeemed, m.records.peers)
    && Accounted(m)
  }

  lemma MadeAppend(log: seq<Entry>, x: Entry)
    ensures Made(log + [x]) == Made(log) + {x.preimage}
    ensures Distinct(log) && x.preimage !in Made(log) ==> Distinct(log + [x])
  {
    var after := log + [x];
    forall p | p in Made(log) ensures p in Made(after) {
      var i :| 0 <= i < |log| && log[i].preimage == p;
      assert after[i] == log[i];
    }
    assert after[|log|] == x;
    if Distinct(log) && x.preimage !in Made(log) {
      forall i, j | 0 <= i < j < |after| ensures after[i].preimage != after[j].preimage {
        assert after[i].preimage in Made(log);
      }
    }
  }

  /** A new entry, and the invite that goes with it. */
  lemma InviteMade(m: Machine, m': Machine, x: Entry, invite: InviteRecord)
    requires Inv(m) && x.preimage !in m.drawn && invite.role == x.role
    requires x.origin == Local ||
      (x.origin.By? && x.origin.index < |m.log| && m.log[x.origin.index].role == Owner
       && m.log[x.origin.index].preimage in m.redeemed)
    requires m'.log == m.log + [x] && m'.records.invites == m.records.invites[x.preimage := invite]
    requires m'.redeemed == m.redeemed && m'.deleted == m.deleted && m'.via == m.via
    requires m.drawn + {x.preimage} <= m'.drawn
    requires PeerRoles(m.log, m.via, m.redeemed, m'.records.peers)
    requires Ownership.Inv(m')
    ensures Inv(m')
  {
    MadeAppend(m.log, x);
    hide Ownership.Inv, Distinct;
    assert Rooted(m'.log, m'.redeemed) by {
      forall i | 0 <= i < |m'.log| ensures i < |m.log| ==> m'.log[i] == m.log[i] {}
    }
    assert InviteRoles(m'.log, m'.records.invites) by {
      forall i | 0 <= i < |m.log| ensures m.log[i].preimage in Made(m.log) {}
    }
  }

  lemma Unchanged(m: Machine, m': Machine)
    requires Inv(m) && Ownership.Inv(m')
    requires m'.log == m.log && m'.via == m.via && m'.redeemed == m.redeemed && m'.deleted == m.deleted
    requires m'.records.invites == m.records.invites && m.drawn <= m'.drawn
    requires PeerRoles(m.log, m.via, m.redeemed, m'.records.peers)
    ensures Inv(m')
  {
    hide Ownership.Inv;
  }

  lemma InviteDeleted(m: Machine, m': Machine, p: Preimage)
    requires Inv(m) && Ownership.Inv(m') && p in m.records.invites
    requires m'.log == m.log && m'.via == m.via && m'.redeemed == m.redeemed && m'.deleted == m.deleted + {p}
    requires m'.records.invites == m.records.invites - {p} && m.drawn <= m'.drawn
    requires PeerRoles(m.log, m.via, m.redeemed, m'.records.peers)
    ensures Inv(m')
  {
    hide Ownership.Inv, Distinct, Rooted;
  }

  lemma RedeemedMore(log: seq<Entry>, via: map<Id, nat>, redeemed: set<Preimage>, more: set<Preimage>, peers: map<Id,
                     PeerRecord>)
    requires Rooted(log, redeemed) && PeerRoles(log, via, redeemed, peers) && redeemed <= more
    ensures Rooted(log, more) && PeerRoles(log, via, more, peers)
  {}

  lemma InviteRedeemed(m: Machine, m': Machine, p: Preimage, id: Id, i: nat)
    requires Inv(m) && Ownership.Inv(m') && p in m.records.invites
    requires i < |m.log| && m.log[i].preimage == p
    requires m'.log == m.log && m'.via == m.via[id := i] && m'.redeemed == m.redeemed + {p} && m'.deleted == m.deleted
    requires m'.records.invites == m.records.invites - {p} && m.drawn <= m'.drawn
    requires m'.records.peers.Keys == m.records.peers.Keys + {id}
    requires forall j :: j in m'.records.peers ==>
               m'.records.peers[j].role == if j == id then m.records.invites[p].role else m.records.peers[j].role
    ensures Inv(m')
  {
    RedeemedMore(m.log, m.via, m.redeemed, m'.redeemed, m.records.peers);
    assert m.log[i].role == m.records.invites[p].role;
    InviteRolesTaken(m.log, m.records.invites, p);
    hide Ownership.Inv, Distinct, Rooted, InviteRoles, Made;
    PeerRolesPut(m.log, m.via, m'.redeemed, m.records.peers, m'.records.peers, id, i);
    hide PeerRoles;
    MovedOver(m.records.invites.Keys, m.redeemed, m.deleted, p);
    assert m'.records.invites.Keys == m.records.invites.Keys - {p};
  }

  lemma InviteRolesTaken(log: seq<Entry>, invites: map<Preimage, InviteRecord>, p: Preimage)
    requires InviteRoles(log, invites)
    ensures InviteRoles(log, invites - {p})
  {}

  lemma MovedOver<T>(a: set<T>, b: set<T>, c: set<T>, x: T)
    requires a !! b !! c && x in a
    ensures (a - {x}) !! (b + {x}) !! c && (a - {x}) + (b + {x}) + c == a + b + c
  {}

  lemma PeerRolesPut(log: seq<Entry>, via: map<Id, nat>, redeemed: set<Preimage>,
                     peers: map<Id, PeerRecord>, peers': map<Id, PeerRecord>, id: Id, i: nat)
    requires PeerRoles(log, via, redeemed, peers)
    requires i < |log| && log[i].preimage in redeemed && id in peers' && peers'[id].role == log[i].role
    requires forall j :: j in peers' && j != id ==> j in peers && peers'[j].role == peers[j].role
    ensures PeerRoles(log, via[id := i], redeemed, peers')
  {}

  lemma HandshakeStep(m: Machine, p: Preimage, init: HandshakeInit, random: Preimage, now: nat)
    requires Inv(m) && random !in m.drawn
    ensures Inv(DoHandshake(m, p, init, random, now))
  {
    Ownership.HandshakeStep(m, p, init, random, now);
    if p in m.records.invites {
      assert p in Made(m.log);
      var i :| 0 <= i < |m.log| && m.log[i].preimage == p;
      hide Inv, Ownership.Inv, Made;
      InviteRedeemed(m, DoHandshake(m, p, init, random, now), p, Id(init.senderId), IndexOf(m.log, p));
    }
  }

  lemma EndPairStep(m: Machine, id: Id, p: Preimage, relay: Option<Text>, now: nat)
    requires Inv(m)
    ensures Inv(DoEndPair(m, id, p, relay, now))
  {
    Ownership.EndPairStep(m, id, p, relay, now);
    hide Ownership.Inv, Distinct, Rooted;
  }

  /** What a peer's command does to the log and the invites. */
  lemma CommandEffect(m: Machine, p: Preimage, from: Lookup, req: Option<Request>, pick: Option<Preimage>,
                      draws: Draws, now: nat)
    requires from.FromPeer?
    ensures var m' := DoCommand(m, p, from, req, pick, draws, now);
            && m'.via == m.via && m'.redeemed == m.redeemed && m.drawn <= m'.drawn
            && if Creates(from, req) then
                 && m'.log == m.log + [Entry(draws.invite, req.value.role, OriginOf(m, from.id))]
                 && m'.records.invites ==
                      m.records.invites[draws.invite := InviteRecord(req.value.alias, draws.invite, req.value.role, now)]
                 && m'.deleted == m.deleted && draws.invite in m'.drawn
               else if Deletes(from, req, pick) then
                 && m'.log == m.log && m'.deleted == m.deleted + {pick.value}
                 && m'.records.invites == m.records.invites - {pick.value}
               else m'.log == m.log && m'.deleted == m.deleted && m'.records.invites == m.records.invites
  {}

  lemma CommandStep(m: Machine, p: Preimage, from: Lookup, req: Option<Request>, pick: Option<Preimage>,
                    draws: Draws, now: nat)
    requires Inv(m) && Enabled(m, Command(p, from, req, pick, draws, now))
    ensures Inv(DoCommand(m, p, from, req, pick, draws, now))
  {
    var m' := DoCommand(m, p, from, req, pick, draws, now);
    Ownership.CommandStep(m, p, from, req, pick, draws, now);
    if from.FromPeer? {
      PeersKeepRoles(m, p, from, req, pick, draws, now);
      CommandEffect(m, p, from, req, pick, draws, now);
      assert PeerRoles(m.log, m.via, m.redeemed, m'.records.peers);
      if Creates(from, req) {
        OwnerVia(m, from.id);
        hide Inv, Ownership.Inv, DoCommand;
        InviteMade(m, m', m'.log[|m.log|], m'.records.invites[draws.invite]);
      } else if Deletes(from, req, pick) {
        hide Inv, Ownership.Inv, DoCommand;
        InviteDeleted(m, m', pick.value);
      } else {
        hide Inv, Ownership.Inv, DoCommand;
        Unchanged(m, m');
      }
    } else {
      hide Ownership.Inv;
      Unchanged(m, m');
    }
  }

  lemma PeersKeepRoles(m: Machine, p: Preimage, from: Lookup, req: Option<Request>, pick: Option<Preimage>,
                       draws: Draws, now: nat)
    requires PeerRoles(m.log, m.via, m.redeemed, m.records.peers)
    ensures PeerRoles(m.log, m.via, m.redeemed, CommandOutcome(m.records, from, p, req, pick, draws, now).records.peers)
  {
    CommandPeers(m.records, p, from, req, pick, draws, now);
    hide CommandOutcome;
  }

  lemma CommandPeers(r: Records, p: Preimage, from: Lookup, req: Option<Request>, pick: Option<Preimage>, draws: Draws,
                     now: nat)
    ensures var r' := CommandOutcome(r, from, p, req, pick, draws, now).records;
            r'.peers.Keys == r.peers.Keys && forall id :: id in r.peers ==> r'.peers[id].role == r.peers[id].role
  {}

  lemma OwnerVia(m: Machine, id: Id)
    requires Inv(m) && id in m.records.peers && m.records.peers[id].role == Owner
    ensures id in m.via && m.via[id] < |m.log| && m.log[m.via[id]].role == Owner
    ensures m.log[m.via[id]].preimage in m.redeemed
  {}

  lemma Step(m: Machine, e: Event)
    requires Inv(m) && Enabled(m, e)
    ensures Inv(Next(m, e))
  {
    Ownership.Step(m, e);
    hide Ownership.Inv, Distinct, Rooted, InviteRoles, Accounted;
    match e
    case LocalInvite(_, role, random, _) =>
      InviteMade(m, Next(m, e), Entry(random, role, Local), Next(m, e).records.invites[random]);
    case BeginPair(_, _, _, _, _) => Unchanged(m, Next(m, e));
    case EndPair(id, p, relay, now) => EndPairStep(m, id, p, relay, now);
    case Handshake(p, init, random, now) => HandshakeStep(m, p, init, random, now);
    case Command(p, from, req, pick, draws, now) => CommandStep(m, p, from, req, pick, draws, now);
    case Learn(_, _, _) => Unchanged(m, Next(m, e));
  }

  lemma {:induction false} RunKeepsInv(ms: seq<Machine>, es: seq<Event>, i: nat)
    requires Run(ms, es) && i <= |es|
    ensures Inv(ms[i])
    decreases i
  {
    if i > 0 {
      RunKeepsInv(ms, es, i - 1);
      Step(ms[i - 1], es[i - 1]);
    } else {
      assert Made(ms[0].log) == {};
    }
  }

  lemma ReachableInv(m: Machine)
    requires Reachable(m)
    ensures Inv(m)
  {
    var ms, es :| Run(ms, es) && m == ms[|es|];
    RunKeepsInv(ms, es, |es|);
  }

  // ---------------------------------------------------------------------------
  // What follows for every reachable state
  // ---------------------------------------------------------------------------

  /**
   * A chain of log entries, each made under the next, which is a redeemed owner invite, and
   * the last by the node's own program.
   */
  ghost predicate Chain(log: seq<Entry>, redeemed: set<Preimage>, chain: seq<nat>) {
    && chain != [] && chain[0] < |log|
    && if |chain| == 1 then log[chain[0]].origin == Local
       else && log[chain[0]].origin == By(chain[1])
            && Chain(log, redeemed, chain[1..])
            && log[chain[1]].role == Owner && log[chain[1]].preimage in redeemed
  }

  lemma {:induction false} ChainFrom(log: seq<Entry>, redeemed: set<Preimage>, i: nat) returns (chain: seq<nat>)
    requires Rooted(log, redeemed) && i < |log|
    ensures Chain(log, redeemed, chain) && chain[0] == i
    decreases i
  {
    match log[i].origin
    case Local => chain := [i];
    case By(j) =>
      var rest := ChainFrom(log, redeemed, j);
      chain := [i] + rest;
      assert chain[1..] == rest;
    case Unrooted => assert false;
  }

  /**
   * Every invite a node holds traces back, by owner invites that were all redeemed, to one
   * its own program made.
   */
  lemma InviteRooted(m: Machine, p: Preimage) returns (chain: seq<nat>)
    requires Reachable(m) && p in m.records.invites
    ensures Chain(m.log, m.redeemed, chain)
    ensures m.log[chain[0]].preimage == p && m.log[chain[0]].role == m.records.invites[p].role
  {
    ReachableInv(m);
    assert p in Made(m.log);
    var i :| 0 <= i < |m.log| && m.log[i].preimage == p;
    chain := ChainFrom(m.log, m.redeemed, i);
  }

  /** This step redeems an invite for peer `id`. */
  predicate Redeems(m: Machine, e: Event, id: Id) {
    e.Handshake? && Id(e.init.senderId) == id && e.preimage in m.records.invites
  }

  /** This step makes `id` a peer that this node has paired with itself. */
  predicate Reverses(m: Machine, e: Event, id: Id) {
    e.EndPair? && e.theirId == id && id in m.records.pending
  }

  /** In the first `i` steps, the `j`-th is the last that makes `id` a peer, and redeems an invite for it. */
  ghost predicate LastRedemption(ms: seq<Machine>, es: seq<Event>, i: nat, id: Id, j: nat)
    requires |ms| == |es| + 1 && i <= |es|
  {
    && j < i && Redeems(ms[j], es[j], id)
    && forall t :: j < t < i ==> !Redeems(ms[t], es[t], id) && !Reverses(ms[t], es[t], id)
  }

  lemma ViaStep(m: Machine, e: Event, id: Id)
    requires Inv(m) && Enabled(m, e)
    ensures var m' := Next(m, e);
            && m.log <= m'.log
            && if Redeems(m, e, id) then id in m'.via && m'.via[id] < |m.log| && m.log[m'.via[id]].preimage == e.preimage
               else if Reverses(m, e, id) then id !in m'.via
               else (id in m'.via <==> id in m.via) && (id in m.via ==> m'.via[id] == m.via[id])
  {
    if Redeems(m, e, id) {
      assert e.preimage in Made(m.log);
    }
    hide Ownership.Inv, Inv, CommandOutcome, Made, Records.CreateInvite, Records.AcceptInvite, Records.UpdatePeerPreimage;
  }

  /** `via` names the invite that was redeemed last for a peer, if that is how the peer was made last. */
  lemma {:induction false} ViaIsLast(ms: seq<Machine>, es: seq<Event>, i: nat, id: Id) returns (j: nat)
    requires Run(ms, es) && i <= |es|
    ensures id in ms[i].via ==>
              && LastRedemption(ms, es, i, id, j)
              && ms[i].via[id] < |ms[i].log| && ms[i].log[ms[i].via[id]].preimage == es[j].preimage
    ensures id !in ms[i].via ==> forall t :: !LastRedemption(ms, es, i, id, t)
    decreases i
  {
    hide Next, Enabled, Inv, Redeems, Reverses;
    if i == 0 {
      j := 0;
    } else {
      var m, e := ms[i - 1], es[i - 1];
      RunKeepsInv(ms, es, i - 1);
      ViaStep(m, e, id);
      j := ViaIsLast(ms, es, i - 1, id);
      if Redeems(m, e, id) {
        j := i - 1;
      } else if Reverses(m, e, id) {
        forall t ensures !LastRedemption(ms, es, i, id, t) {}
      } else {
        forall t ensures LastRedemption(ms, es, i, id, t) <==> LastRedemption(ms, es, i - 1, id, t) {}
      }
    }
  }

  /**
   * The role of every peer is that of the invite last redeemed for it, which goes back in the
   * same way; or it is a reader, because no invite was redeemed for it, or this node has paired with it since.
   */
  lemma PeerRooted(ms: seq<Machine>, es: seq<Event>, i: nat, id: Id) returns (chain: seq<nat>, j: nat)
    requires Run(ms, es) && i <= |es| && id in ms[i].records.peers
    ensures chain == [] <==> forall t :: !LastRedemption(ms, es, i, id, t)
    ensures chain == [] ==> ms[i].records.peers[id].role == Reader
    ensures chain != [] ==>
              && LastRedemption(ms, es, i, id, j)
              && Chain(ms[i].log, ms[i].redeemed, chain)
              && ms[i].log[chain[0]].preimage == es[j].preimage && es[j].preimage in ms[i].redeemed
              && ms[i].log[chain[0]].role == ms[i].records.peers[id].role
  {
    RunKeepsInv(ms, es, i);
    j := ViaIsLast(ms, es, i, id);
    hide LastRedemption, Run;
    if id in ms[i].via {
      chain := ChainFrom(ms[i].log, ms[i].redeemed, ms[i].via[id]);
    } else {
      chain := [];
    }
  }

  lemma {:induction false} MadeSize(log: seq<Entry>)
    requires Distinct(log)
    ensures |Made(log)| == |log|
    decreases |log|
  {
    if log != [] {
      var n := |log| - 1;
      MadeSize(log[..n]);
      MadeAppend(log[..n], log[n]);
      assert log == log[..n] + [log[n]];
      assert log[n].preimage !in Made(log[..n]);
    } else {
      assert Made(log) == {};
    }
  }

  /** Invites made are invites open, redeemed and deleted, none in two ways. */
  lemma InvitesConserved(m: Machine)
    requires Reachable(m)
    ensures |m.log| == |m.records.invites| + |m.redeemed| + |m.deleted|
    ensures m.records.invites.Keys !! m.redeemed !! m.deleted
  {
    ReachableInv(m);
    MadeSize(m.log);
    Ownership.DisjointSize(m.records.invites.Keys, m.redeemed, m.deleted);
  }

  /** The preimages of the handshakes that made a peer in the first `i` steps, in order. */
  ghost function Redemptions(ms: seq<Machine>, es: seq<Event>, i: nat): seq<Preimage>
    requires Run(ms, es) && i <= |es|
  {
    if i == 0 then []
    else
      Redemptions(ms, es, i - 1)
      + if es[i - 1].Handshake? && es[i - 1].preimage in ms[i - 1].records.invites then [es[i - 1].preimage] else []
  }

  /** Whatever handshakes arrive, no invite is redeemed twice. */
  lemma {:induction false} RedeemedOnce(ms: seq<Machine>, es: seq<Event>, i: nat)
    requires Run(ms, es) && i <= |es|
    ensures NoDuplicates(Redemptions(ms, es, i))
    ensures forall p :: p in Redemptions(ms, es, i) <==> p in ms[i].redeemed
    decreases i
  {
    if i > 0 {
      var m, e := ms[i - 1], es[i - 1];
      RedeemedOnce(ms, es, i - 1);
      RunKeepsInv(ms, es, i - 1);
      if e.Handshake? && e.preimage in m.records.invites {
        AppendFresh(Redemptions(ms, es, i - 1), e.preimage);
      }
    }
  }

  lemma RedeemedConsumed(m: Machine, e: Event)
    requires Enabled(m, e) && m.redeemed <= m.consumed
    ensures Next(m, e).redeemed <= Next(m, e).consumed
  {
    hide CommandOutcome, Records.CompleteAsAcceptor, Records.CreateInvite, Records.AcceptInvite, Records.UpdatePeerPreimage;
  }

  /** In every run, nobody can reach the node by a token that has been redeemed. */
  lemma {:induction false} RedeemedGone(ms: seq<Machine>, es: seq<Event>, i: nat)
    requires Run(ms, es) && i <= |es|
    ensures ms[i].redeemed <= ms[i].consumed && ms[i].redeemed !! ms[i].records.Live()
    decreases i
  {
    hide Enabled, Next, Records.Live, Records.Owned;
    Ownership.RunKeepsInv(ms, es, i);
    if i > 0 {
      RedeemedGone(ms, es, i - 1);
      RedeemedConsumed(ms[i - 1], es[i - 1]);
    }
  }
}
