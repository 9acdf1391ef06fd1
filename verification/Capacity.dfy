/**
 * Conservation of inbound capacity: a commit admits at most as many sends as it was listed
 * times, over every interleaving, counting the listing that is still unused.
 */
module Capacity {
  import opened Types
  import opened Router
  import opened Relay
  import Rendezvous

  predicate Lists(e: Event, id: Id, c: Commit) {
    (e.Register? || e.AddCommits?) && e.id == id && c in e.commits
  }

  /** How many register or add_commits calls of these listed commit `c` for device `id`. */
  function Listings(es: seq<Event>, id: Id, c: Commit): nat {
    if es == [] then 0
    else Listings(es[..|es| - 1], id, c) + if Lists(es[|es| - 1], id, c) then 1 else 0
  }

  predicate Asks(call: Call, id: Id, c: Commit) {
    call.ticket.Some? && call.to == id && Sha256(call.preimage) == c
  }

  /** The calls that were admitted to device `id` by commit `c`. */
  ghost function Admissions(m: State, id: Id, c: Commit): set<nat> {
    set k | k in m.calls && Asks(m.calls[k], id, c)
  }

  predicate Valid(m: State, id: Id, c: Commit) {
    id in m.tables.devices && c in m.tables.devices[id].commits
  }

  ghost predicate Conserved(m: State, id: Id, c: Commit) {
    |Admissions(m, id, c)| + (if Valid(m, id, c) then 1 else 0) <= m.listed[(id, c)]
  }

  /** A step changes the admissions only by admitting. */
  lemma AdmissionsStep(m: State, e: Event, id: Id, c: Commit)
    requires Enabled(m, e) && (e.Invoke? ==> Next(m, e).calls[e.call].ticket.None?)
    ensures var m' := Next(m, e);
            if e.Admit? && Asks(m'.calls[e.call], id, c)
            then Admissions(m', id, c) == Admissions(m, id, c) + {e.call}
            else Admissions(m', id, c) <= Admissions(m, id, c)
  {
    hide Next;
    CallsPersist(m, e);
    Arrivals(m, e);
  }

  lemma SubsetSize<T>(a: set<T>, b: set<T>)
    requires a <= b
    ensures |a| <= |b|
  {
    assert b == a + (b - a);
  }

  lemma ListedStep(m: State, e: Event, id: Id, c: Commit)
    requires Enabled(m, e)
    ensures Next(m, e).listed[(id, c)] == m.listed[(id, c)] + if Lists(e, id, c) then 1 else 0
  {
    if e.Register? || e.AddCommits? {
      var added := set x | x in e.commits :: (e.id, x);
      assert (id, c) in added <==> Lists(e, id, c);
    }
  }

  lemma AdmitUses(m: State, k: nat, id: Id, c: Commit)
    requires k in m.calls
    ensures Valid(DoAdmit(m, k), id, c) ==> Valid(m, id, c)
    ensures m.calls[k].ticket.None? && Asks(DoAdmit(m, k).calls[k], id, c) ==> Valid(m, id, c) && !Valid(DoAdmit(m, k), id, c)
  {}

  /** Only a listing makes a commit valid, and the admission that uses it makes it invalid. */
  lemma ValidStep(m: State, e: Event, id: Id, c: Commit)
    requires Enabled(m, e)
    ensures var m' := Next(m, e);
            && (Valid(m', id, c) ==> Valid(m, id, c) || Lists(e, id, c))
            && (e.Admit? && m.calls[e.call].ticket.None? && Asks(m'.calls[e.call], id, c) ==>
                  Valid(m, id, c) && !Valid(m', id, c))
  {
    if e.Admit? {
      AdmitUses(m, e.call, id, c);
    } else if e.Register? || e.AddCommits? || e.Unregister? {
    } else {
      DevicesFrame(m, e);
      hide Next;
    }
  }

  lemma Step(m: State, e: Event, id: Id, c: Commit)
    requires Conserved(m, id, c) && Enabled(m, e) && (e.Admit? ==> m.calls[e.call].ticket.None?)
    ensures Conserved(Next(m, e), id, c)
  {
    AdmissionsStep(m, e, id, c);
    ValidStep(m, e, id, c);
    ListedStep(m, e, id, c);
    var before, after := Admissions(m, id, c), Admissions(Next(m, e), id, c);
    if after <= before {
      SubsetSize(after, before);
    }
  }

  /**
   * In every run, for every device and commit: the sends admitted by it, and one more if it
   * is valid at the end, are at most as many as the calls that listed it.
   */
  lemma {:induction false} CapacityConserved(ms: seq<State>, es: seq<Event>, i: nat, id: Id, c: Commit)
    requires Run(ms, es) && i <= |es|
    ensures |Admissions(ms[i], id, c)| + (if Valid(ms[i], id, c) then 1 else 0) <= Listings(es[..i], id, c)
    ensures ms[i].listed[(id, c)] == Listings(es[..i], id, c) && Conserved(ms[i], id, c)
    decreases i
  {
    if i > 0 {
      CapacityConserved(ms, es, i - 1, id, c);
      Rendezvous.RunKeepsInv(ms, es, i - 1);
      Step(ms[i - 1], es[i - 1], id, c);
      ListedStep(ms[i - 1], es[i - 1], id, c);
      assert es[..i][..i - 1] == es[..i - 1];
    } else {
      assert Admissions(ms[0], id, c) == {};
    }
  }

  // ---------------------------------------------------------------------------
  // Deliveries
  // ---------------------------------------------------------------------------

  /** This step puts a message for device `id`, sent under commit `c`, into a delivery channel. */
  predicate Delivers(m: State, e: Event, id: Id, c: Commit)
    requires Enabled(m, e)
  {
    && e.Enqueue? && Asks(m.calls[e.call], id, c)
    && Next(m, e).calls[e.call].pc == Waiting
  }

  /** How many of the first `i` steps of a run do. */
  ghost function Deliveries(ms: seq<State>, es: seq<Event>, i: nat, id: Id, c: Commit): nat
    requires Run(ms, es) && i <= |es|
  {
    if i == 0 then 0
    else Deliveries(ms, es, i - 1, id, c) + if Delivers(ms[i - 1], es[i - 1], id, c) then 1 else 0
  }

  /** Admitted calls whose delivery is behind them. */
  ghost function Sent(m: State, id: Id, c: Commit): set<nat> {
    set k | k in m.calls && Asks(m.calls[k], id, c) && (m.calls[k].pc.Waiting? || m.calls[k].pc.Returned?)
  }

  lemma SentStep(m: State, e: Event, id: Id, c: Commit)
    requires Enabled(m, e)
    ensures Sent(m, id, c) <= Sent(Next(m, e), id, c)
    ensures Delivers(m, e, id, c) ==> e.call in Sent(Next(m, e), id, c) - Sent(m, id, c)
  {
    hide Next;
    forall k | k in Sent(m, id, c)
      ensures k in Sent(Next(m, e), id, c)
    {
      CallPersists(m, e, k);
      PcFrame(m, e);
    }
    if e.Enqueue? {
      CallPersists(m, e, e.call);
    }
  }

  /** However many sends race with one preimage, at most one is delivered for each listing of its commit. */
  lemma {:induction false} OneDeliveryPerListing(ms: seq<State>, es: seq<Event>, i: nat, id: Id, c: Commit)
    requires Run(ms, es) && i <= |es|
    ensures Deliveries(ms, es, i, id, c) <= |Sent(ms[i], id, c)|
    ensures Deliveries(ms, es, i, id, c) <= Listings(es[..i], id, c)
    decreases i
  {
    hide Next, Enabled;
    if i > 0 {
      var m, e := ms[i - 1], es[i - 1];
      OneDeliveryPerListing(ms, es, i - 1, id, c);
      SentStep(m, e, id, c);
      SubsetSize(Sent(m, id, c), Sent(ms[i], id, c));
      if Delivers(m, e, id, c) {
        SubsetSize(Sent(m, id, c) + {e.call}, Sent(ms[i], id, c));
      }
    }
    CapacityConserved(ms, es, i, id, c);
    SubsetSize(Sent(ms[i], id, c), Admissions(ms[i], id, c));
  }

  // ---------------------------------------------------------------------------
  // What an entry lists
  // ---------------------------------------------------------------------------

  /** This step puts commit `c` into the entry of `id`. */
  predicate Enters(m: State, e: Event, id: Id, c: Commit) {
    Lists(e, id, c) && (e.Register? || id in m.tables.devices)
  }

  /**
   * This step takes commit `c` out of the entry of `id`, if it is there: a registration without it, an
   * unregistration, an admission by it, or an admission that finds the entry's channel closed.
   */
  predicate Leaves(m: State, e: Event, id: Id, c: Commit) {
    match e
    case Register(i, commits, _, _) => i == id && c !in commits
    case Unregister(i) => i == id
    case Admit(k) =>
      && k in m.calls && m.calls[k].to == id && id in m.tables.devices
      && (m.tables.devices[id].channel in m.closed || Sha256(m.calls[k].preimage) == c)
    case _ => false
  }

  lemma EntryStep(m: State, e: Event, id: Id, c: Commit)
    requires Enabled(m, e)
    ensures Valid(Next(m, e), id, c) <==> Enters(m, e, id, c) || (Valid(m, id, c) && !Leaves(m, e, id, c))
  {
    if e.Admit? {
      AdmitLeaves(m, e.call, id, c);
      hide DoAdmit;
    } else if !e.Register? && !e.Unregister? && !e.AddCommits? {
      DevicesFrame(m, e);
      hide Next;
    }
  }

  lemma AdmitLeaves(m: State, k: nat, id: Id, c: Commit)
    requires k in m.calls
    ensures Valid(DoAdmit(m, k), id, c) <==> Valid(m, id, c) && !Leaves(m, Admit(k), id, c)
  {}

  /** In every run, an entry lists exactly the commits that have entered it and not left it since. */
  lemma {:induction false} ListedExactly(ms: seq<State>, es: seq<Event>, i: nat, id: Id, c: Commit)
    requires Run(ms, es) && i <= |es|
    ensures Valid(ms[i], id, c) <==>
            exists t :: 0 <= t < i && Enters(ms[t], es[t], id, c)
                     && forall u :: t < u < i ==> !Leaves(ms[u], es[u], id, c)
    decreases i
  {
    hide Enabled, Next, Enters, Leaves;
    if i > 0 {
      var m, e := ms[i - 1], es[i - 1];
      ListedExactly(ms, es, i - 1, id, c);
      hide Valid;
      EntryStep(m, e, id, c);
      if Valid(m, id, c) && !Leaves(m, e, id, c) {
        var t :| 0 <= t < i - 1 && Enters(ms[t], es[t], id, c) && forall u :: t < u < i - 1 ==> !Leaves(ms[u], es[u], id, c);
        assert forall u :: t < u < i ==> !Leaves(ms[u], es[u], id, c);
      }
    }
  }
}
