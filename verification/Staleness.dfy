/**
 * When the first send with a learned preimage is refused: exactly if the relay has, after that
 * preimage was issued, handled an I_AM that the device had said before, and no listing since.
 */
module Staleness {
  import opened Types
  import opened Router
  import opened Device
  import opened Nodes
  import opened System
  import opened Sync
  import Generations
  import History
  import Links
  import Listing
  import Relay
  import Rendezvous
  import Wire

  /** A session handles an I_AM. */
  predicate HandlesHail(w: World, e: Event) {
    e.Process? && e.channel in w.links && w.links[e.channel].up != [] && w.links[e.channel].up[0].Hail?
  }

  /** A session handles an I_AM or an UPDATE_COMMITS. */
  predicate HandlesListing(w: World, e: Event) {
    && e.Process? && e.channel in w.links && w.links[e.channel].up != []
    && (w.links[e.channel].up[0].Hail? || w.links[e.channel].up[0].frame.UpdateFrame?)
  }

  /**
   * The device connects in step `c`, issues the preimage that is live before step `i` in step `h`, and
   * after that, in step `q`, the relay handles the I_AM of the connection made in step `c`; since then
   * it has handled no I_AM and no UPDATE_COMMITS.
   */
  ghost predicate OverwrittenBy(ws: seq<World>, es: seq<Event>, i: nat, c: nat, h: nat, q: nat)
    requires |ws| == |es| + 1 && i <= |es|
  {
    && c < h < q < i
    && es[c].Connect? && es[h].Handle? && ws[h + 1].past == ws[i].past
    && HandlesHail(ws[q], es[q]) && es[q].channel == es[c].channel
    && forall r :: q < r < i ==> !HandlesListing(ws[r], es[r])
  }

  /** An older I_AM has overwritten the device's entry. */
  ghost predicate Overwritten(ws: seq<World>, es: seq<Event>, i: nat)
    requires |ws| == |es| + 1 && i <= |es|
  {
    exists c, h, q :: OverwrittenBy(ws, es, i, c, h, q)
  }

  // ---------------------------------------------------------------------------
  // Where an I_AM in transit comes from
  // ---------------------------------------------------------------------------

  lemma HailBefore(json: Bytes -> bool, w: World, e: Event, s: nat)
    requires Enabled(json, w, e) && Inv(json, w)
    requires var w' := Next(json, w, e); s in w'.links && w'.links[s].up != [] && w'.links[s].up[0].Hail?
    ensures var hail := Next(json, w, e).links[s].up[0];
            || e == Connect(s, hail.commits)
            || (s in w.links && w.links[s].up != [] && w.links[s].up[0] == hail)
  {
    hide Enabled, Next, Inv;
    if e.Handle? {
      HandleUps(json, w, e);
    } else if e.Process? {
      ProcessUps(json, w, e);
    } else if e.ReceiveSend? || e.Forward? || e.End? {
      hide Relay.Next;
      var _ := NetMoves(json, w, e);
    } else {
      LinksRest(json, w, e);
    }
  }

  lemma HandleUps(json: Bytes -> bool, w: World, e: Event)
    requires e.Handle? && Enabled(json, w, e) && Inv(json, w)
    ensures var w' := Next(json, w, e);
            && w'.links.Keys == w.links.Keys
            && forall t :: t in w.links ==> w'.links[t] == w.links[t] || w'.links[t].up == [] || !w'.links[t].up[0].Hail?
  {
    hide DoHandle, Inv, Enabled, Next, Issued;
    Generations.HandleNext(json, w, e);
    Generations.HandleEffect(json, w, e);
  }

  /** Behind the frame that is handled there is no I_AM. */
  lemma ProcessUps(json: Bytes -> bool, w: World, e: Event)
    requires e.Process? && Enabled(json, w, e) && Inv(json, w)
    ensures var w' := Next(json, w, e);
            && w'.links.Keys == w.links.Keys
            && forall t :: t in w.links ==> w'.links[t] == w.links[t] || w'.links[t].up == [] || !w'.links[t].up[0].Hail?
  {
    assert GoodUp(json, w, w.links[e.channel].up);
    hide Inv, Relay.Next, GoodAck;
  }

  lemma {:induction false} HailOrigin(json: Bytes -> bool, ws: seq<World>, es: seq<Event>, q: nat, s: nat) returns (c: nat)
    requires Run(json, ws, es) && q <= |es| && Few(ws[q])
    requires s in ws[q].links && ws[q].links[s].up != [] && ws[q].links[s].up[0].Hail?
    ensures c < q && es[c] == Connect(s, ws[q].links[s].up[0].commits)
    decreases q
  {
    hide Next, Enabled, Few, Inv;
    if q > 0 {
      hide Init;
      Generations.StepBefore(json, ws, es, q);
      HailBefore(json, ws[q - 1], es[q - 1], s);
      if es[q - 1] == Connect(s, ws[q].links[s].up[0].commits) {
        c := q - 1;
      } else {
        c := HailOrigin(json, ws, es, q - 1, s);
      }
    }
  }

  lemma LinksStep(json: Bytes -> bool, w: World, e: Event)
    requires Enabled(json, w, e)
    ensures w.links.Keys + (if e.Connect? then {e.channel} else {}) <= Next(json, w, e).links.Keys
  {
    hide Relay.Next, Relay.Enabled, History.Next, History.Enabled, NewChannel, CommandOutcome, CommandFrames;
  }

  lemma {:induction false} LinksStay(json: Bytes -> bool, ws: seq<World>, es: seq<Event>, i: nat, j: nat)
    requires Run(json, ws, es) && i <= j <= |es|
    ensures ws[i].links.Keys <= ws[j].links.Keys
    decreases j
  {
    hide Next, Enabled, Init;
    if i < j {
      LinksStay(json, ws, es, i, j - 1);
      LinksStep(json, ws[j - 1], es[j - 1]);
    }
  }

  /** Every connection has a channel of its own. */
  lemma ConnectOnce(json: Bytes -> bool, ws: seq<World>, es: seq<Event>, c: nat, d: nat)
    requires Run(json, ws, es) && c < |es| && d < |es|
    requires es[c].Connect? && es[d].Connect? && es[c].channel == es[d].channel
    ensures c == d
  {
    if c < d {
      ConnectedBefore(json, ws, es, c, d);
    } else if d < c {
      ConnectedBefore(json, ws, es, d, c);
    }
  }

  lemma ConnectedBefore(json: Bytes -> bool, ws: seq<World>, es: seq<Event>, c: nat, d: nat)
    requires Run(json, ws, es) && c < d < |es| && es[c].Connect? && es[d].Connect?
    ensures es[c].channel != es[d].channel
  {
    LinksStep(json, ws[c], es[c]);
    LinksStay(json, ws, es, c + 1, d);
    hide Next, Init;
  }

  // ---------------------------------------------------------------------------
  // Generations over a run
  // ---------------------------------------------------------------------------

  lemma IssuesApart(w: World, w': World)
    requires Generations.Issues(w) <= Generations.Issues(w') && |w.past| == |w'.past|
    ensures w.past == w'.past && w.cur == w'.cur
  {
    assert w.past == Generations.Issues(w)[..|w.past|] && w'.past == Generations.Issues(w')[..|w.past|];
    assert w.cur == Generations.Issues(w)[|w.past|] && w'.cur == Generations.Issues(w')[|w.past|];
  }

  lemma PastGrows(json: Bytes -> bool, ws: seq<World>, es: seq<Event>, i: nat, j: nat)
    requires Run(json, ws, es) && i <= j <= |es| && Few(ws[j])
    ensures |ws[i].past| <= |ws[j].past|
    ensures |ws[i].past| == |ws[j].past| ==> ws[i].past == ws[j].past && ws[i].cur == ws[j].cur
  {
    hide Init, Next, Enabled, Few;
    Generations.NeverBackwards(json, ws, es, i, j);
    if |ws[i].past| == |ws[j].past| {
      IssuesApart(ws[i], ws[j]);
    }
  }

  lemma DrawnStep(json: Bytes -> bool, w: World, e: Event)
    requires Enabled(json, w, e) && Inv(json, w)
    ensures w.node.drawn <= Next(json, w, e).node.drawn
    ensures e.Handle? ==> Next(json, w, e).cur !in w.node.drawn && |Next(json, w, e).past| == |w.past| + 1
    ensures !e.Handle? ==> Next(json, w, e).past == w.past && Next(json, w, e).cur == w.cur
  {
    if e.Handle? {
      Generations.HandleNext(json, w, e);
      Generations.HandleEffect(json, w, e);
      Generations.Renews(json, w, e);
      hide DoHandle, Inv;
    } else {
      hide Relay.Next, Relay.Enabled, Inv, NewChannel;
    }
  }

  /**
   * What was issued between two states: the step that issued what is live in the later one, which the
   * device had not drawn in the earlier one.
   */
  lemma {:induction false} IssuedBetween(json: Bytes -> bool, ws: seq<World>, es: seq<Event>, c: nat, q: nat) returns (h: nat)
    requires Run(json, ws, es) && c <= q <= |es| && Few(ws[q])
    ensures ws[c].node.drawn <= ws[q].node.drawn
    ensures ws[c].past == ws[q].past ==> ws[c].cur == ws[q].cur
    ensures ws[c].past != ws[q].past ==>
              c <= h < q && es[h].Handle? && ws[h + 1].past == ws[q].past && ws[q].cur !in ws[c].node.drawn
    decreases q
  {
    hide Next, Enabled, Init, Few, Inv;
    if c == q {
      h := 0;
    } else {
      Generations.StepBefore(json, ws, es, q);
      var g := IssuedBetween(json, ws, es, c, q - 1);
      DrawnStep(json, ws[q - 1], es[q - 1]);
      PastGrows(json, ws, es, c, q - 1);
      h := if es[q - 1].Handle? then q - 1 else g;
    }
  }

  lemma {:induction false} EarlierFew(json: Bytes -> bool, ws: seq<World>, es: seq<Event>, i: nat, j: nat)
    requires Run(json, ws, es) && i <= j <= |es| && Few(ws[j])
    ensures Few(ws[i])
    decreases j
  {
    hide Next, Enabled, Init, Few, Inv;
    if i < j {
      Generations.FewBefore(json, ws[j - 1], es[j - 1]);
      EarlierFew(json, ws, es, i, j - 1);
    }
  }

  /** A commit becomes listed only when a session handles a listing. */
  lemma ListingStep(json: Bytes -> bool, w: World, e: Event, p: Preimage)
    requires Enabled(json, w, e) && !Listing.Listed(w.relay, w.nodeId, p)
    requires Listing.Listed(Next(json, w, e).relay, w.nodeId, p)
    ensures HandlesListing(w, e)
  {
    RelayAfter(json, w, e);
    if RelayEvent(w, e).Some? {
      Listing.ListedMore(w.relay, RelayEvent(w, e).value, w.nodeId, p);
    }
    hide Next, Relay.Next, Relay.Enabled, Listing.Listed, History.Enabled, NewChannel;
  }

  lemma SameNode(json: Bytes -> bool, w: World, e: Event)
    requires Enabled(json, w, e)
    ensures Next(json, w, e).nodeId == w.nodeId && (e.Handle? ==> Next(json, w, e).relay == w.relay)
  {
    hide Relay.Next, Relay.Enabled, History.Next, History.Enabled, NewChannel;
  }

  /** What is listed now was listed since it was issued. */
  lemma {:induction false} ListedSince(json: Bytes -> bool, ws: seq<World>, es: seq<Event>, i: nat) returns (q: nat)
    requires Run(json, ws, es) && i <= |es| && Few(ws[i]) && Listing.Listed(ws[i].relay, ws[i].nodeId, ws[i].cur)
    ensures q < i && HandlesListing(ws[q], es[q]) && ws[q].past == ws[i].past
    decreases i
  {
    hide Next, Enabled, Few, Inv, HandlesListing, Listing.Listed;
    if i == 0 {
      NothingListed(ws[0]);
      assert false;
    } else {
      hide Init;
      var w, e := ws[i - 1], es[i - 1];
      Generations.StepBefore(json, ws, es, i);
      DrawnStep(json, w, e);
      SameNode(json, w, e);
      if e.Handle? {
        Listing.RunKeepsGood(json, ws, es, i - 1);
        NotListedYet(w, ws[i].cur);
        assert false;
      } else if Listing.Listed(w.relay, w.nodeId, w.cur) {
        q := ListedSince(json, ws, es, i - 1);
      } else {
        ListingStep(json, w, e, w.cur);
        q := i - 1;
      }
    }
  }

  lemma NothingListed(w: World)
    requires Init(w)
    ensures !Listing.Listed(w.relay, w.nodeId, w.cur)
  {}

  lemma NotListedYet(w: World, p: Preimage)
    requires Listing.Good(w) && p !in w.node.drawn
    ensures !Listing.Listed(w.relay, w.nodeId, p)
  {}

  /** The last listing before step `i`. */
  lemma {:induction false} LastListing(ws: seq<World>, es: seq<Event>, q0: nat, i: nat) returns (q: nat)
    requires |ws| == |es| + 1 && q0 < i <= |es| && HandlesListing(ws[q0], es[q0])
    ensures q0 <= q < i && HandlesListing(ws[q], es[q])
    ensures forall r :: q < r < i ==> !HandlesListing(ws[r], es[r])
    decreases i
  {
    hide HandlesListing;
    if HandlesListing(ws[i - 1], es[i - 1]) {
      q := i - 1;
    } else {
      q := LastListing(ws, es, q0, i - 1);
    }
  }

  // ---------------------------------------------------------------------------
  // What the last listing said
  // ---------------------------------------------------------------------------

  lemma ConnectLists(json: Bytes -> bool, w: World, e: Event)
    requires e.Connect? && Enabled(json, w, e) && Inv(json, w)
    ensures Sha256(w.cur) in e.commits && forall p :: Sha256(p) in e.commits ==> p in w.node.drawn
  {
    Listing.Drawn(w);
    hide Records.Live, Inv;
  }

  /** The I_AM of a connection lists the live preimage exactly if that was issued before the device connected. */
  lemma HailLists(json: Bytes -> bool, ws: seq<World>, es: seq<Event>, q: nat) returns (c: nat, h: nat)
    requires Run(json, ws, es) && q < |es| && Few(ws[q]) && HandlesHail(ws[q], es[q])
    ensures c < q && es[c].Connect? && es[c].channel == es[q].channel
    ensures Sha256(ws[q].cur) in ws[q].links[es[q].channel].up[0].commits <==> ws[c].past == ws[q].past
    ensures ws[c].past != ws[q].past ==> c < h < q && es[h].Handle? && ws[h + 1].past == ws[q].past
  {
    hide Next, Init, Few, Inv;
    c := HailOrigin(json, ws, es, q, es[q].channel);
    EarlierFew(json, ws, es, c, q);
    Generations.RunKeepsInv(json, ws, es, c);
    assert Enabled(json, ws[c], es[c]);
    hide Enabled;
    ConnectLists(json, ws[c], es[c]);
    h := IssuedBetween(json, ws, es, c, q);
  }

  /** Step `q` handles a listing, unless of an I_AM without the live preimage. */
  predicate ListsCur(w: World, e: Event) {
    HandlesHail(w, e) ==> Sha256(w.cur) in w.links[e.channel].up[0].commits
  }

  lemma OverwrittenExactly(json: Bytes -> bool, ws: seq<World>, es: seq<Event>, q: nat, i: nat)
    requires Run(json, ws, es) && q < i <= |es| && Few(ws[i]) && HandlesListing(ws[q], es[q])
    requires forall r :: q < r < i ==> !HandlesListing(ws[r], es[r])
    requires ws[q].past == ws[i].past
    ensures Overwritten(ws, es, i) <==> !ListsCur(ws[q], es[q])
  {
    hide Next, Init, Few, Inv, Enabled;
    EarlierFew(json, ws, es, q, i);
    if !ListsCur(ws[q], es[q]) {
      var c, h := HailLists(json, ws, es, q);
      assert OverwrittenBy(ws, es, i, c, h, q);
    }
    forall c, h, p | OverwrittenBy(ws, es, i, c, h, p) ensures !ListsCur(ws[q], es[q]) {
      assert p == q by {
        OneLastListing(ws, es, i, p, q);
      }
      OverwrittenUnlisted(json, ws, es, i, c, h, q);
    }
  }

  lemma OneLastListing(ws: seq<World>, es: seq<Event>, i: nat, p: nat, q: nat)
    requires |ws| == |es| + 1 && p < i <= |es| && q < i && HandlesListing(ws[p], es[p]) && HandlesListing(ws[q], es[q])
    requires forall r :: p < r < i ==> !HandlesListing(ws[r], es[r])
    requires forall r :: q < r < i ==> !HandlesListing(ws[r], es[r])
    ensures p == q
  {
    hide HandlesListing;
  }

  lemma OverwrittenUnlisted(json: Bytes -> bool, ws: seq<World>, es: seq<Event>, i: nat, c: nat, h: nat, q: nat)
    requires Run(json, ws, es) && i <= |es| && Few(ws[i]) && OverwrittenBy(ws, es, i, c, h, q)
    ensures !ListsCur(ws[q], es[q])
  {
    hide Next, Init, Few, Inv, Enabled;
    EarlierFew(json, ws, es, q, i);
    EarlierFew(json, ws, es, h + 1, q);
    PastGrows(json, ws, es, h + 1, q);
    PastGrows(json, ws, es, q, i);
    var d, g := HailLists(json, ws, es, q);
    ConnectOnce(json, ws, es, c, d);
    Generations.StepBefore(json, ws, es, h + 1);
    DrawnStep(json, ws[h], es[h]);
    PastGrows(json, ws, es, c, h);
  }

  // ---------------------------------------------------------------------------
  // The entry since the last listing
  // ---------------------------------------------------------------------------

  /** The device has an entry, and its connection is alive. */
  predicate Reachable(m: Relay.State, id: Id) {
    id in m.tables.devices && m.tables.devices[id].channel !in m.closed
  }

  lemma AdmitNext(json: Bytes -> bool, w: World, k: nat)
    requires Enabled(json, w, RelayStep(Relay.Admit(k)))
    ensures Relay.Enabled(w.relay, Relay.Admit(k))
    ensures Next(json, w, RelayStep(Relay.Admit(k))).relay == Relay.DoAdmit(w.relay, k)
  {}

  lemma AdmitOutcome(m: Relay.State, k: nat, id: Id)
    requires k in m.calls && m.calls[k].to == id
    ensures var pc := Relay.DoAdmit(m, k).calls[k].pc;
            if !Reachable(m, id) then pc == Relay.Returned(Wire.SEND_ERR_NOT_CONNECTED, [])
            else if Sha256(m.calls[k].preimage) in m.tables.devices[id].commits then pc.Inserting?
            else pc == Relay.Returned(Wire.SEND_ERR_INVALID_PREIMAGE, [])
  {}

  /** A send under preimage `p` is admitted. */
  predicate Admits(w: World, e: Event, p: Preimage) {
    && e.RelayStep? && e.step.Admit? && e.step.call in w.relay.calls && w.relay.calls[e.step.call].preimage == p
    && Relay.DoAdmit(w.relay, e.step.call).calls[e.step.call].pc.Inserting?
  }

  /** In the first `i` steps, a send under `p` has been admitted, and no listing has been handled since. */
  ghost predicate AlreadyAdmitted(ws: seq<World>, es: seq<Event>, i: nat, p: Preimage)
    requires |ws| == |es| + 1 && i <= |es|
  {
    exists t :: 0 <= t < i && Admits(ws[t], es[t], p) && forall r :: t < r < i ==> !HandlesListing(ws[r], es[r])
  }

  predicate InEntry(m: Relay.State, id: Id, p: Preimage) {
    id in m.tables.devices ==> Sha256(p) in m.tables.devices[id].commits
  }

  lemma AdmitTakes(m: Relay.State, k: nat, id: Id, p: Preimage)
    requires k in m.calls && m.calls[k].to == id
    ensures var m' := Relay.DoAdmit(m, k);
            id in m'.tables.devices ==>
              && id in m.tables.devices
              && (InEntry(m', id, p) <==> InEntry(m, id, p) && !(m.calls[k].preimage == p && m'.calls[k].pc.Inserting?))
  {}

  /** The step handles no listing, so it leaves the entry as it is, unless it admits a send. */
  lemma QuietStep(json: Bytes -> bool, w: World, e: Event)
    requires Enabled(json, w, e) && !HandlesListing(w, e) && !(e.RelayStep? && e.step.Admit?)
    ensures Next(json, w, e).relay.tables.devices == w.relay.tables.devices
  {
    hide Next, Relay.Next;
    RelayAfter(json, w, e);
    if RelayEvent(w, e).Some? {
      hide Relay.Enabled;
      Relay.DevicesFrame(w.relay, RelayEvent(w, e).value);
    }
  }

  lemma EntryStep(json: Bytes -> bool, w: World, e: Event, p: Preimage)
    requires Enabled(json, w, e) && !HandlesListing(w, e) && Inv(json, w)
    ensures var m, m' := w.relay, Next(json, w, e).relay;
            w.nodeId in m'.tables.devices ==>
              w.nodeId in m.tables.devices && (InEntry(m', w.nodeId, p) <==> InEntry(m, w.nodeId, p) && !Admits(w, e, p))
  {
    if e.RelayStep? && e.step.Admit? {
      AdmitNext(json, w, e.step.call);
      assert e.step.call in w.relay.calls && w.relay.calls[e.step.call].to == w.nodeId;
      hide Next, Enabled, Inv, Relay.DoAdmit, InEntry;
      AdmitTakes(w.relay, e.step.call, w.nodeId, p);
    } else {
      hide Next, Enabled, Inv, HandlesListing;
      QuietStep(json, w, e);
    }
  }

  lemma RegisterEnters(m: Relay.State, id: Id, commits: seq<Commit>, s: nat, p: Preimage)
    ensures InEntry(Relay.Next(m, Relay.Register(id, commits, [], s)), id, p) <==> Sha256(p) in commits
  {}

  lemma AddEnters(m: Relay.State, id: Id, commits: seq<Commit>, p: Preimage)
    requires Sha256(p) in commits
    ensures InEntry(Relay.Next(m, Relay.AddCommits(id, commits)), id, p)
  {}

  /** After a listing, the live preimage is in the entry exactly if it was listed. */
  lemma ListingEnters(json: Bytes -> bool, w: World, e: Event)
    requires Enabled(json, w, e) && HandlesListing(w, e) && Inv(json, w)
    ensures InEntry(Next(json, w, e).relay, w.nodeId, w.cur) <==> ListsCur(w, e)
  {
    assert Next(json, w, e) == DoProcess(w, e.channel, e.ack);
    Links.UpCases(json, w, e.channel);
    Links.ProcessEffect(w, e.channel, e.ack);
    hide Inv, DoProcess, GoodAck, InEntry, Relay.Next, Relay.Enabled, Enabled, Next;
    match w.links[e.channel].up[0]
    case Hail(commits) => RegisterEnters(w.relay, w.nodeId, commits, e.channel, w.cur);
    case Out(UpdateFrame(commits)) => AddEnters(w.relay, w.nodeId, commits, w.cur);
  }

  lemma {:induction false} EntrySince(json: Bytes -> bool, ws: seq<World>, es: seq<Event>, q: nat, i: nat)
    requires Run(json, ws, es) && q < i <= |es| && Few(ws[i]) && HandlesListing(ws[q], es[q])
    requires forall r :: q < r < i ==> !HandlesListing(ws[r], es[r])
    ensures ws[i].nodeId == ws[q].nodeId
    ensures ws[q].nodeId in ws[i].relay.tables.devices ==>
              (InEntry(ws[i].relay, ws[q].nodeId, ws[q].cur) <==>
                 ListsCur(ws[q], es[q]) && forall t :: q < t < i ==> !Admits(ws[t], es[t], ws[q].cur))
    decreases i
  {
    hide Next, Init, Few, Inv, Enabled, HandlesListing, ListsCur, InEntry, Admits;
    Generations.StepBefore(json, ws, es, i);
    SameNode(json, ws[i - 1], es[i - 1]);
    if i == q + 1 {
      ListingEnters(json, ws[q], es[q]);
    } else {
      EntrySince(json, ws, es, q, i - 1);
      EntryStep(json, ws[i - 1], es[i - 1], ws[q].cur);
    }
  }

  // ---------------------------------------------------------------------------
  // What follows for every run
  // ---------------------------------------------------------------------------

  /**
   * A send under the live preimage is refused as invalid exactly if an older I_AM has overwritten the device's
   * entry, or another one was admitted and the device has not listed the preimage again, and the entry's
   * connection is alive. Otherwise it is admitted, or the device is not connected.
   */
  lemma SendExactly(json: Bytes -> bool, ws: seq<World>, es: seq<Event>, i: nat, k: nat)
    requires Run(json, ws, es) && i < |es| && Few(ws[i]) && es[i] == RelayStep(Relay.Admit(k))
    requires k in ws[i].relay.calls && ws[i].relay.calls[k].preimage == ws[i].cur
    ensures k in ws[i + 1].relay.calls
    ensures var pc, reachable := ws[i + 1].relay.calls[k].pc, Reachable(ws[i].relay, ws[i].nodeId);
            var refused := Overwritten(ws, es, i) || AlreadyAdmitted(ws, es, i, ws[i].cur);
            && (pc == Relay.Returned(Wire.SEND_ERR_INVALID_PREIMAGE, []) <==> reachable && refused)
            && (pc.Inserting? <==> reachable && !refused)
            && (pc == Relay.Returned(Wire.SEND_ERR_NOT_CONNECTED, []) <==> !reachable)
  {
    hide Next, Init, Few, Inv, Enabled, Listing.Good, Overwritten, AlreadyAdmitted;
    Generations.RunKeepsInv(json, ws, es, i);
    AdmitNext(json, ws[i], k);
    SentHere(json, ws[i], k);
    AdmitOutcome(ws[i].relay, k, ws[i].nodeId);
    if Reachable(ws[i].relay, ws[i].nodeId) {
      Listing.RunKeepsGood(json, ws, es, i);
      SentListed(json, ws[i], k);
      RefusedExactly(json, ws, es, i);
      assert InEntry(ws[i].relay, ws[i].nodeId, ws[i].cur) <==>
             Sha256(ws[i].cur) in ws[i].relay.tables.devices[ws[i].nodeId].commits;
    }
  }

  lemma SentHere(json: Bytes -> bool, w: World, k: nat)
    requires k in w.relay.calls && Inv(json, w)
    ensures w.relay.calls[k].to == w.nodeId
  {}

  /** What the entry lacks was never listed again after it was admitted, or overwritten. */
  lemma RefusedExactly(json: Bytes -> bool, ws: seq<World>, es: seq<Event>, i: nat)
    requires Run(json, ws, es) && i <= |es| && Few(ws[i]) && ws[i].nodeId in ws[i].relay.tables.devices
    requires Listing.Listed(ws[i].relay, ws[i].nodeId, ws[i].cur)
    ensures !InEntry(ws[i].relay, ws[i].nodeId, ws[i].cur) <==>
            Overwritten(ws, es, i) || AlreadyAdmitted(ws, es, i, ws[i].cur)
  {
    hide Next, Init, Few, Inv, Enabled, Listing.Listed, Overwritten, InEntry, Admits, HandlesListing, ListsCur,
         AlreadyAdmitted;
    var q0 := ListedSince(json, ws, es, i);
    var q := LastListing(ws, es, q0, i);
    EarlierFew(json, ws, es, q, i);
    PastGrows(json, ws, es, q0, q);
    PastGrows(json, ws, es, q, i);
    EntrySince(json, ws, es, q, i);
    OverwrittenExactly(json, ws, es, q, i);
    AdmittedSince(ws, es, q, i, ws[i].cur);
  }

  lemma AdmittedSince(ws: seq<World>, es: seq<Event>, q: nat, i: nat, p: Preimage)
    requires |ws| == |es| + 1 && q < i <= |es| && HandlesListing(ws[q], es[q])
    requires forall r :: q < r < i ==> !HandlesListing(ws[r], es[r])
    ensures AlreadyAdmitted(ws, es, i, p) <==> exists t :: q < t < i && Admits(ws[t], es[t], p)
  {
    hide HandlesListing, Admits;
    ListingAdmitsNot(ws[q], es[q], p);
  }

  lemma ListingAdmitsNot(w: World, e: Event, p: Preimage)
    requires HandlesListing(w, e)
    ensures !Admits(w, e, p)
  {}

  lemma SentListed(json: Bytes -> bool, w: World, k: nat)
    requires k in w.relay.calls && w.relay.calls[k].preimage == w.cur && w.nodeId in w.relay.tables.devices
    requires Listing.Good(w) && Inv(json, w)
    ensures Listing.Listed(w.relay, w.nodeId, w.cur)
  {
    assert OkPreimage(w, w.cur);
  }

  /** No send under this preimage has been admitted yet. */
  ghost predicate Unadmitted(m: Relay.State, p: Preimage) {
    forall k :: k in m.calls && m.calls[k].preimage == p ==> m.calls[k].ticket.None?
  }

  predicate Ticketed(m: Relay.State, k: nat, p: Preimage) {
    k in m.calls && m.calls[k].preimage == p && m.calls[k].ticket.Some?
  }

  lemma TicketStep(json: Bytes -> bool, w: World, e: Event, k: nat, p: Preimage)
    requires Enabled(json, w, e) && Inv(json, w) && Ticketed(w.relay, k, p)
    ensures Ticketed(Next(json, w, e).relay, k, p)
  {
    hide Next, Relay.Next, Rendezvous.Inv;
    RelayAfter(json, w, e);
    if RelayEvent(w, e).Some? {
      Rendezvous.ShapeOf(w.relay, k);
      Relay.CallPersists(w.relay, RelayEvent(w, e).value, k);
    }
  }

  lemma AdmitTickets(json: Bytes -> bool, w: World, e: Event, p: Preimage)
    requires Enabled(json, w, e) && Admits(w, e, p)
    ensures Ticketed(Next(json, w, e).relay, e.step.call, p)
  {
    AdmitNext(json, w, e.step.call);
    hide Next, Enabled;
  }

  lemma {:induction false} TicketStays(json: Bytes -> bool, ws: seq<World>, es: seq<Event>, t: nat, i: nat, p: Preimage)
    requires Run(json, ws, es) && t < i <= |es| && Few(ws[i]) && Admits(ws[t], es[t], p)
    ensures Ticketed(ws[i].relay, es[t].step.call, p)
    decreases i
  {
    hide Next, Init, Few, Inv, Enabled, Ticketed;
    Generations.StepBefore(json, ws, es, i);
    if i == t + 1 {
      AdmitTickets(json, ws[t], es[t], p);
    } else {
      TicketStays(json, ws, es, t, i - 1, p);
      TicketStep(json, ws[i - 1], es[i - 1], es[t].step.call, p);
    }
  }

  /** The first send under the live preimage is refused as invalid exactly if an older I_AM has overwritten the entry. */
  lemma FirstSendExactly(json: Bytes -> bool, ws: seq<World>, es: seq<Event>, i: nat, k: nat)
    requires Run(json, ws, es) && i < |es| && Few(ws[i]) && es[i] == RelayStep(Relay.Admit(k))
    requires k in ws[i].relay.calls && ws[i].relay.calls[k].preimage == ws[i].cur
    requires Unadmitted(ws[i].relay, ws[i].cur)
    ensures k in ws[i + 1].relay.calls
    ensures var pc, reachable := ws[i + 1].relay.calls[k].pc, Reachable(ws[i].relay, ws[i].nodeId);
            && (pc == Relay.Returned(Wire.SEND_ERR_INVALID_PREIMAGE, []) <==> reachable && Overwritten(ws, es, i))
            && (pc.Inserting? <==> reachable && !Overwritten(ws, es, i))
            && (pc == Relay.Returned(Wire.SEND_ERR_NOT_CONNECTED, []) <==> !reachable)
  {
    hide Next, Init, Few, Inv, Enabled, Overwritten, Reachable, HandlesListing;
    SendExactly(json, ws, es, i, k);
    if AlreadyAdmitted(ws, es, i, ws[i].cur) {
      var t :| 0 <= t < i && Admits(ws[t], es[t], ws[i].cur);
      TicketStays(json, ws, es, t, i, ws[i].cur);
      assert false;
    }
  }

  /** The relay handles no I_AM of a connection that the device has left. */
  ghost predicate NoLateHail(ws: seq<World>, es: seq<Event>, i: nat)
    requires |ws| == |es| + 1 && i <= |es|
  {
    forall q :: 0 <= q < i && HandlesHail(ws[q], es[q]) ==> ws[q].conn == Some(es[q].channel)
  }

  /** If the device's entry stays in place or is replaced by its own current I_AM, a first send is never refused as invalid. */
  lemma NeverRefused(json: Bytes -> bool, ws: seq<World>, es: seq<Event>, i: nat, k: nat)
    requires Run(json, ws, es) && i < |es| && Few(ws[i]) && es[i] == RelayStep(Relay.Admit(k))
    requires k in ws[i].relay.calls && ws[i].relay.calls[k].preimage == ws[i].cur
    requires Unadmitted(ws[i].relay, ws[i].cur) && NoLateHail(ws, es, i)
    ensures k in ws[i + 1].relay.calls
    ensures ws[i + 1].relay.calls[k].pc != Relay.Returned(Wire.SEND_ERR_INVALID_PREIMAGE, [])
  {
    hide Next, Init, Few, Inv, Enabled, Unadmitted;
    FirstSendExactly(json, ws, es, i, k);
    if Overwritten(ws, es, i) {
      var c, h, q :| OverwrittenBy(ws, es, i, c, h, q);
      NotOverwritten(json, ws, es, i, c, h, q);
    }
  }

  lemma NotOverwritten(json: Bytes -> bool, ws: seq<World>, es: seq<Event>, i: nat, c: nat, h: nat, q: nat)
    requires Run(json, ws, es) && i <= |es| && Few(ws[i]) && NoLateHail(ws, es, i)
    ensures !OverwrittenBy(ws, es, i, c, h, q)
  {
    hide Next, Init, Few, Inv, Enabled;
    if OverwrittenBy(ws, es, i, c, h, q) {
      EarlierFew(json, ws, es, q, i);
      Generations.RunKeepsInv(json, ws, es, q);
      CurrentHail(json, ws[q], es[q]);
      OverwrittenUnlisted(json, ws, es, i, c, h, q);
    }
  }

  lemma CurrentHail(json: Bytes -> bool, w: World, e: Event)
    requires HandlesHail(w, e) && w.conn == Some(e.channel) && Inv(json, w)
    ensures Sha256(w.cur) in w.links[e.channel].up[0].commits
  {}
}
