/**
 * What a node remembers: invites it created, pairings it started, and its peers. The values
 * and their transitions come first; the class that updates them in place is proved against
 * these. Random bytes and the clock are parameters.
 */
module Device {
  import opened Types
  import opened Wire

  datatype PeerRole = Owner | Writer | Reader

  datatype InviteRecord = InviteRecord(alias: string, preimage: Preimage, role: PeerRole, createdAt: nat)

  datatype PendingPeer = PendingPeer(
    alias: string, theirId: Id, theirPreimage: Preimage, myPreimage: Preimage, createdAt: nat)

  datatype PeerRecord = PeerRecord(
    alias: string, role: PeerRole, lastKnownRelay: Option<Text>, lastContacted: nat,
    issued: seq<Preimage>, their: Option<Preimage>)

  datatype Lookup = FromInvite(invite: InviteRecord) | FromPeer(id: Id, peer: PeerRecord) | Unknown

  function Without(ps: seq<Preimage>, p: Preimage): (rest: seq<Preimage>)
    ensures forall q :: q in rest <==> q in ps && q != p
  {
    if ps == [] then []
    else (if ps[0] == p then [] else [ps[0]]) + Without(ps[1..], p)
  }

  datatype Records = Records(
    invites: map<Preimage, InviteRecord>,
    pending: map<Id, PendingPeer>,
    peers: map<Id, PeerRecord>)
  {
    function CreateInvite(alias: string, role: PeerRole, random: Preimage, now: nat): Records {
      this.(invites := invites[random := InviteRecord(alias, random, role, now)])
    }

    function AcceptInvite(theirId: Id, theirPreimage: Preimage, alias: string, random: Preimage, now: nat): Records {
      this.(pending := pending[theirId := PendingPeer(alias, theirId, theirPreimage, random, now)])
    }

    function CompleteAsInviter(preimage: Preimage, peerId: Id, peerPreimage: Preimage, relay: Text,
                               random: Preimage, now: nat): Option<Records>
    {
      if preimage !in invites then None
      else
        var invite := invites[preimage];
        var peer := PeerRecord(invite.alias, invite.role, Some(relay), now, [random], Some(peerPreimage));
        Some(this.(invites := invites - {preimage}, peers := peers[peerId := peer]))
    }

    function CompleteAsAcceptor(peerId: Id, peerPreimage: Preimage, relay: Option<Text>, now: nat): Option<Records> {
      if peerId !in pending then None
      else
        var p := pending[peerId];
        var peer := PeerRecord(p.alias, Reader, relay, now, [p.myPreimage], Some(peerPreimage));
        Some(this.(pending := pending - {peerId}, peers := peers[peerId := peer]))
    }

    function ConsumeAndRenew(peerId: Id, used: Preimage, random: Preimage, now: nat): Option<Records> {
      if peerId !in peers then None
      else
        var peer := peers[peerId];
        Some(this.(peers := peers[peerId := peer.(issued := Without(peer.issued, used) + [random], lastContacted := now)]))
    }

    function DeleteInvite(preimage: Preimage): Records {
      this.(invites := invites - {preimage})
    }

    function GetPeerPreimage(peerId: Id): Option<Preimage> {
      if peerId in peers then peers[peerId].their else None
    }

    function UpdatePeerPreimage(peerId: Id, preimage: Preimage, now: nat): Records {
      if peerId !in peers then this
      else this.(peers := peers[peerId := peers[peerId].(their := Some(preimage), lastContacted := now)])
    }

    /** An answer that some order of walking the peers gives. */
    ghost predicate LooksUp(preimage: Preimage, r: Lookup) {
      if preimage in invites then r == FromInvite(invites[preimage])
      else match r
        case FromInvite(_) => false
        case FromPeer(id, peer) => id in peers && peers[id] == peer && preimage in peer.issued
        case Unknown => forall id :: id in peers ==> preimage !in peers[id].issued
    }

    function ByInvite(): map<Preimage, seq<Preimage>> {
      map p | p in invites :: [invites[p].preimage]
    }

    function ByPending(): map<Id, seq<Preimage>> {
      map id | id in pending :: [pending[id].myPreimage]
    }

    function ByPeer(): map<Id, seq<Preimage>> {
      map id | id in peers :: peers[id].issued
    }

    /** The preimages by which this node can still be reached. */
    ghost function Live(): set<Preimage> {
      Held(ByInvite()) + Held(ByPending()) + Held(ByPeer())
    }

    /** Every live preimage has one owner: one invite, one started pairing or one peer, which has no other. */
    ghost predicate Owned() {
      && (forall p :: p in invites ==> invites[p].preimage == p)
      && OneEach(ByInvite()) && OneEach(ByPending()) && OneEach(ByPeer())
      && Held(ByInvite()) !! Held(ByPending()) !! Held(ByPeer())
    }
  }

  ghost function Held<K(!new)>(source: map<K, seq<Preimage>>): set<Preimage> {
    set k, p | k in source && p in source[k] :: p
  }

  /** Each key holds one preimage, and no other key holds it. */
  ghost predicate OneEach<K(!new)>(source: map<K, seq<Preimage>>) {
    && (forall k :: k in source ==> |source[k]| == 1)
    && (forall j, k, p :: j in source && k in source && p in source[j] && p in source[k] ==> j == k)
  }

  ghost predicate NoDuplicates<T>(s: seq<T>) {
    forall i, j :: 0 <= i < j < |s| ==> s[i] != s[j]
  }

  lemma AppendFresh<T>(s: seq<T>, x: T)
    requires NoDuplicates(s) && x !in s
    ensures NoDuplicates(s + [x])
  {}

  /** With every live preimage owned, the answer does not depend on the order of the walk. */
  lemma LookupUnique(r: Records, preimage: Preimage, l1: Lookup, l2: Lookup)
    requires r.Owned() && r.LooksUp(preimage, l1) && r.LooksUp(preimage, l2)
    ensures l1 == l2
  {
    if l1.FromPeer? && l2.FromPeer? {
      assert preimage in r.ByPeer()[l1.id] && preimage in r.ByPeer()[l2.id];
    }
  }

  class DeviceState {
    var invites: map<Preimage, InviteRecord>
    var pending: map<Id, PendingPeer>
    var peers: map<Id, PeerRecord>

    function Value(): Records
      reads this
    {
      Records(invites, pending, peers)
    }

    constructor ()
      ensures Value() == Records(map[], map[], map[])
    {
      invites, pending, peers := map[], map[], map[];
    }

    method CreateInvite(alias: string, role: PeerRole, random: Preimage, now: nat)
      returns (record: InviteRecord, commit: Commit)
      modifies this
      ensures Value() == old(Value()).CreateInvite(alias, role, random, now)
      ensures record == Value().invites[random] && commit == Sha256(random)
    {
      record := InviteRecord(alias, random, role, now);
      invites := invites[random := record];
      commit := Sha256(random);
    }

    method AcceptInvite(theirId: Id, theirPreimage: Preimage, alias: string, random: Preimage, now: nat)
      returns (mine: Preimage, commit: Commit)
      modifies this
      ensures Value() == old(Value()).AcceptInvite(theirId, theirPreimage, alias, random, now)
      ensures mine == random && commit == Sha256(random)
    {
      pending := pending[theirId := PendingPeer(alias, theirId, theirPreimage, random, now)];
      mine, commit := random, Sha256(random);
    }

    method CompleteHandshakeAsInviter(preimage: Preimage, peerId: Id, peerPreimage: Preimage, relay: Text,
                                      random: Preimage, now: nat)
      returns (renewed: Option<(Preimage, Commit)>)
      modifies this
      ensures match old(Value()).CompleteAsInviter(preimage, peerId, peerPreimage, relay, random, now)
              case Some(value) => Value() == value && renewed == Some((random, Sha256(random)))
              case None => Value() == old(Value()) && renewed == None
    {
      if preimage !in invites {
        return None;
      }
      var invite := invites[preimage];
      invites := invites - {preimage};
      var peer := PeerRecord(invite.alias, invite.role, Some(relay), now, [random], Some(peerPreimage));
      peers := peers[peerId := peer];
      return Some((random, Sha256(random)));
    }

    method CompleteHandshakeAsAcceptor(peerId: Id, peerPreimage: Preimage, relay: Option<Text>, now: nat)
      returns (done: bool)
      modifies this
      ensures match old(Value()).CompleteAsAcceptor(peerId, peerPreimage, relay, now)
              case Some(value) => Value() == value && done
              case None => Value() == old(Value()) && !done
    {
      if peerId !in pending {
        return false;
      }
      var p := pending[peerId];
      pending := pending - {peerId};
      peers := peers[peerId := PeerRecord(p.alias, Reader, relay, now, [p.myPreimage], Some(peerPreimage))];
      return true;
    }

    method ConsumeAndRenewPreimage(peerId: Id, used: Preimage, random: Preimage, now: nat)
      returns (renewed: Option<(Preimage, Commit)>)
      modifies this
      ensures match old(Value()).ConsumeAndRenew(peerId, used, random, now)
              case Some(value) => Value() == value && renewed == Some((random, Sha256(random)))
              case None => Value() == old(Value()) && renewed == None
    {
      if peerId !in peers {
        return None;
      }
      var peer := peers[peerId];
      peer := peer.(issued := Without(peer.issued, used));
      peer := peer.(issued := peer.issued + [random]);
      peers := peers[peerId := peer.(lastContacted := now)];
      return Some((random, Sha256(random)));
    }

    method RemoveInvite(preimage: Preimage)
      modifies this
      ensures Value() == old(Value()).DeleteInvite(preimage)
    {
      invites := invites - {preimage};
    }

    method UpdatePeerPreimage(peerId: Id, preimage: Preimage, now: nat)
      modifies this
      ensures Value() == old(Value()).UpdatePeerPreimage(peerId, preimage, now)
    {
      if peerId in peers {
        peers := peers[peerId := peers[peerId].(their := Some(preimage), lastContacted := now)];
      }
    }

    /** Walks the peers in an order that the map chooses. */
    method LookupPreimage(preimage: Preimage) returns (r: Lookup)
      ensures Value().LooksUp(preimage, r)
    {
      if preimage in invites {
        return FromInvite(invites[preimage]);
      }
      var todo := peers.Keys;
      while todo != {}
        invariant todo <= peers.Keys
        invariant forall id :: id in peers && id !in todo ==> preimage !in peers[id].issued
        decreases todo
      {
        var id :| id in todo;
        if preimage in peers[id].issued {
          return FromPeer(id, peers[id]);
        }
        todo := todo - {id};
      }
      return Unknown;
    }

    /** Walks all three maps, each in an order that the map chooses. */
    method GetAllCommits() returns (commits: seq<Commit>)
      ensures forall c :: c in commits <==> c.preimage in Value().Live()
      ensures Value().Owned() ==>
                NoDuplicates(commits) && |commits| == |invites| + |pending| + |peers|
    {
      var fromInvites := CollectCommits(Value().ByInvite());
      var fromPending := CollectCommits(Value().ByPending());
      var fromPeers := CollectCommits(Value().ByPeer());
      commits := fromInvites + fromPending + fromPeers;
      ghost var r := Value();
      assert r.ByInvite().Keys == invites.Keys && r.ByPending().Keys == pending.Keys && r.ByPeer().Keys == peers.Keys;
      if r.Owned() {
        JoinDistinct(fromInvites, fromPending);
        JoinDistinct(fromInvites + fromPending, fromPeers);
      }
    }
  }

  lemma JoinDistinct(a: seq<Commit>, b: seq<Commit>)
    requires NoDuplicates(a) && NoDuplicates(b) && forall c :: c in a ==> c !in b
    ensures NoDuplicates(a + b)
  {
    forall i, j | 0 <= i < j < |a + b|
      ensures (a + b)[i] != (a + b)[j]
    {
      if i < |a| <= j {
        assert a[i] in a && b[j - |a|] in b;
      }
    }
  }

  /** The commits of all preimages that a map holds, key after key. */
  method CollectCommits<K(!new,==)>(source: map<K, seq<Preimage>>) returns (commits: seq<Commit>)
    ensures forall c :: c in commits <==> c.preimage in Held(source)
    ensures OneEach(source) ==> NoDuplicates(commits) && |commits| == |source|
  {
    commits := [];
    var todo := source.Keys;
    while todo != {}
      invariant todo <= source.Keys
      invariant forall c :: c in commits <==> exists k :: k in source && k !in todo && c.preimage in source[k]
      invariant OneEach(source) ==> NoDuplicates(commits) && |commits| + |todo| == |source|
      decreases todo
    {
      var k :| k in todo;
      var more := CommitsOf(source[k]);
      if OneEach(source) {
        assert more[0].preimage in source[k];
        assert source[k] == [more[0].preimage];
        assert more[0] !in commits;
      }
      commits := commits + more;
      todo := todo - {k};
    }
  }

  method CommitsOf(ps: seq<Preimage>) returns (commits: seq<Commit>)
    ensures |commits| == |ps|
    ensures forall c :: c in commits <==> c.preimage in ps
  {
    commits := [];
    for i := 0 to |ps|
      invariant |commits| == i
      invariant forall c :: c in commits <==> c.preimage in ps[..i]
    {
      assert ps[..i + 1] == ps[..i] + [ps[i]];
      commits := commits + [Sha256(ps[i])];
    }
    assert ps[..|ps|] == ps;
  }
}
