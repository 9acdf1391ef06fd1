/**
 * Who may change a device's entry: any number of sessions of one relay, interleaved block by
 * block with everything else that the relay does.
 */
module Identities {
  import opened Types
  import opened Wire
  import opened Frames
  import opened Router
  import opened Sessions
  import Relay

  /** Each session has a nonce of its own; its delivery channel has the session's name. */
  datatype Keys = Keys(nonce: nat -> u32, verify: Verifier, read: Bytes32 -> Commit)

  function SettingOf(keys: Keys, session: nat): Setting {
    Setting(keys.nonce(session), session, keys.verify, keys.read)
  }

  /**
   * `bound` holds the identity of each session that has one, and `joining` the I_AM of each that
   * has given up its old identity and not yet registered the new one. `sender` is history:
   * which session made a call.
   */
  datatype State = State(relay: Relay.State, bound: map<nat, Id>, joining: map<nat, IAm>, sender: map<nat, nat>)

  const START := State(Relay.START, map[], map[], map[])

  datatype Event =
    | Greet(session: nat, iAm: IAm)
    | Join(session: nat)
    | Update(session: nat, update: UpdateCommits)
    | Ask(session: nat, call: nat, send: Send)
    | Other(step: Relay.Event)

  predicate Enabled(keys: Keys, m: State, e: Event) {
    match e
    case Greet(s, iAm) => s !in m.joining && Proven(SettingOf(keys, s), iAm)
    case Join(s) => s in m.joining
    case Update(s, _) => s !in m.joining
    case Ask(s, k, _) => s !in m.joining && k !in m.relay.calls
    case Other(step) =>
      && !step.Register? && !step.Unregister? && !step.AddCommits? && !step.Invoke?
      && Relay.Enabled(m.relay, step)
  }

  function Registration(keys: Keys, s: nat, iAm: IAm): Relay.Event {
    Relay.Register(Id(iAm.id52), Each(keys.read, iAm.commits), Responses(iAm.recent), s)
  }

  function Next(keys: Keys, m: State, e: Event): State
    requires Enabled(keys, m, e)
  {
    match e
    case Greet(s, iAm) =>
      m.(relay := if s in m.bound then Relay.Next(m.relay, Relay.Unregister(m.bound[s])) else m.relay,
         bound := m.bound - {s}, joining := m.joining[s := iAm])
    case Join(s) =>
      m.(relay := Relay.Next(m.relay, Registration(keys, s, m.joining[s])),
         bound := m.bound[s := Id(m.joining[s].id52)], joining := m.joining - {s})
    case Update(s, update) =>
      if s !in m.bound then m
      else m.(relay := Relay.Next(m.relay, Relay.AddCommits(m.bound[s], Each(keys.read, update.commits))))
    case Ask(s, k, send) =>
      m.(relay := Relay.Next(m.relay, Relay.Invoke(k, Id(send.toId), Preimage(send.preimage), send.payload)),
         sender := m.sender[k := s])
    case Other(step) => m.(relay := Relay.Next(m.relay, step))
  }

  ghost predicate Run(keys: Keys, ms: seq<State>, es: seq<Event>) {
    && |ms| == |es| + 1 && ms[0] == START
    && forall i :: 0 <= i < |es| ==> Enabled(keys, ms[i], es[i]) && ms[i + 1] == Next(keys, ms[i], es[i])
  }

  // ---------------------------------------------------------------------------
  // What changes an entry
  // ---------------------------------------------------------------------------

  predicate SameEntry(d1: map<Id, DeviceEntry>, d2: map<Id, DeviceEntry>, id: Id) {
    (id in d1 <==> id in d2) && (id in d1 ==> d1[id] == d2[id])
  }

  /** Call `k` is for device `id`, and its admission finds a dead channel or a listed preimage. */
  predicate Spends(m: Relay.State, k: nat, id: Id) {
    && k in m.calls && m.calls[k].to == id && id in m.tables.devices
    && (m.tables.devices[id].channel in m.closed || Sha256(m.calls[k].preimage) in m.tables.devices[id].commits)
  }

  /** The session that takes this step, if it is one that may concern an entry. */
  predicate StepOf(m: State, e: Event, s: nat) {
    match e
    case Greet(t, _) => t == s
    case Join(t) => t == s
    case Update(t, _) => t == s
    case Ask(t, _, _) => t == s
    case Other(Admit(k)) => k in m.sender && m.sender[k] == s
    case Other(_) => false
  }

  /** Nothing is added to the entry, and it leads where it led. */
  predicate OnlyLoses(d1: map<Id, DeviceEntry>, d2: map<Id, DeviceEntry>, id: Id) {
    id in d2 ==> id in d1 && d2[id].channel == d1[id].channel && d2[id].commits <= d1[id].commits
  }

  lemma AdmitTouches(m: Relay.State, k: nat, id: Id)
    requires k in m.calls
    ensures var d, d' := m.tables.devices, Relay.DoAdmit(m, k).tables.devices;
            (!SameEntry(d, d', id) <==> Spends(m, k, id)) && OnlyLoses(d, d', id)
  {}

  lemma RelayDevices(m: Relay.State, e: Relay.Event)
    requires Relay.Enabled(m, e)
    ensures var t := m.tables;
            Relay.Next(m, e).tables.devices ==
              match e
              case Unregister(id) => t.devices - {id}
              case Register(id, commits, _, s) => t.devices[id := DeviceEntry(SetOf(commits), s)]
              case AddCommits(id, commits) => t.AddCommits(id, commits).devices
              case Admit(k) => Relay.DoAdmit(m, k).tables.devices
              case _ => t.devices
  {
    hide Relay.DoAdmit, Tables.AddCommits;
    if !e.Register? && !e.Unregister? && !e.AddCommits? && !e.Admit? {
      Relay.DevicesFrame(m, e);
      hide Relay.Next;
    }
  }

  lemma DevicesAfter(keys: Keys, m: State, e: Event)
    requires Enabled(keys, m, e)
    ensures var t := m.relay.tables;
            Next(keys, m, e).relay.tables.devices ==
              match e
              case Greet(s, _) => if s in m.bound then t.devices - {m.bound[s]} else t.devices
              case Join(s) =>
                var iAm := m.joining[s];
                t.devices[Id(iAm.id52) := DeviceEntry(SetOf(Each(keys.read, iAm.commits)), s)]
              case Update(s, update) =>
                if s in m.bound then t.AddCommits(m.bound[s], Each(keys.read, update.commits)).devices else t.devices
              case Ask(_, _, _) => t.devices
              case Other(Admit(k)) => Relay.DoAdmit(m.relay, k).tables.devices
              case Other(_) => t.devices
  {
    hide Relay.Next, Relay.DoAdmit, Tables.AddCommits, SetOf, Each, Responses;
    match e
    case Greet(s, _) => if s in m.bound { RelayDevices(m.relay, Relay.Unregister(m.bound[s])); }
    case Join(s) => RelayDevices(m.relay, Registration(keys, s, m.joining[s]));
    case Update(s, update) =>
      if s in m.bound { RelayDevices(m.relay, Relay.AddCommits(m.bound[s], Each(keys.read, update.commits))); }
    case Ask(_, k, send) =>
      RelayDevices(m.relay, Relay.Invoke(k, Id(send.toId), Preimage(send.preimage), send.payload));
    case Other(step) => RelayDevices(m.relay, step);
  }

  /** What a session does with the entry of an identity that is neither its own nor the one it is about to take. */
  lemma StrangerTouches(keys: Keys, m: State, e: Event, s: nat, id: Id)
    requires Enabled(keys, m, e) && StepOf(m, e, s)
    requires s in m.bound ==> m.bound[s] != id
    requires s in m.joining ==> Id(m.joining[s].id52) != id
    ensures var d, d' := m.relay.tables.devices, Next(keys, m, e).relay.tables.devices;
            && (!SameEntry(d, d', id) <==> e.Other? && e.step.Admit? && Spends(m.relay, e.step.call, id))
            && OnlyLoses(d, d', id)
  {
    assert e.Other? && e.step.Admit? ==> e.step.call in m.relay.calls;
    hide Next, Enabled, Relay.DoAdmit;
    DevicesAfter(keys, m, e);
    if e.Other? && e.step.Admit? {
      AdmitTouches(m.relay, e.step.call, id);
    }
  }

  /** The session has proved that it owns the identity. */
  ghost predicate Proved(es: seq<Event>, i: nat, s: nat, id: Id)
    requires i <= |es|
  {
    exists j :: 0 <= j < i && es[j].Greet? && es[j].session == s && Id(es[j].iAm.id52) == id
  }

  lemma ProvedLater(es: seq<Event>, i: nat, s: nat, id: Id)
    requires 0 < i <= |es|
    ensures Proved(es, i - 1, s, id) ==> Proved(es, i, s, id)
  {}

  lemma {:induction false} UnprovedNotBound(keys: Keys, ms: seq<State>, es: seq<Event>, i: nat, s: nat, id: Id)
    requires Run(keys, ms, es) && i <= |es| && !Proved(es, i, s, id)
    ensures s in ms[i].bound ==> ms[i].bound[s] != id
    ensures s in ms[i].joining ==> Id(ms[i].joining[s].id52) != id
    decreases i
  {
    if i > 0 {
      ProvedLater(es, i, s, id);
      UnprovedNotBound(keys, ms, es, i - 1, s, id);
      hide Relay.Next, Relay.Enabled;
      assert es[i - 1].Greet? && es[i - 1].session == s ==> Id(es[i - 1].iAm.id52) != id;
    }
  }

  /**
   * In every run, a session that has not proved that it owns an identity never creates the
   * identity's entry, redirects it or adds commits to it; and it changes the entry exactly by
   * a SEND that shows a listed preimage, or that finds the entry's channel closed.
   */
  lemma UnprovedSession(keys: Keys, ms: seq<State>, es: seq<Event>, i: nat, s: nat, id: Id)
    requires Run(keys, ms, es) && i < |es| && StepOf(ms[i], es[i], s) && !Proved(es, i, s, id)
    ensures var d, d' := ms[i].relay.tables.devices, ms[i + 1].relay.tables.devices;
            && (!SameEntry(d, d', id) <==> es[i].Other? && es[i].step.Admit? && Spends(ms[i].relay, es[i].step.call, id))
            && OnlyLoses(d, d', id)
  {
    hide Enabled, Next, Spends, SameEntry, OnlyLoses;
    UnprovedNotBound(keys, ms, es, i, s, id);
    StrangerTouches(keys, ms[i], es[i], s, id);
  }

  lemma {:induction false} SendersKnown(keys: Keys, ms: seq<State>, es: seq<Event>, i: nat)
    requires Run(keys, ms, es) && i <= |es|
    ensures ms[i].relay.calls.Keys <= ms[i].sender.Keys
    decreases i
  {
    if i > 0 {
      SendersKnown(keys, ms, es, i - 1);
      hide Run;
      CallsAfter(keys, ms[i - 1], es[i - 1]);
      hide Next, Enabled;
    }
  }

  lemma CallsAfter(keys: Keys, m: State, e: Event)
    requires Enabled(keys, m, e)
    ensures Next(keys, m, e).relay.calls.Keys <= m.relay.calls.Keys + if e.Ask? then {e.call} else {}
    ensures m.sender.Keys + (if e.Ask? then {e.call} else {}) <= Next(keys, m, e).sender.Keys
  {
    if e.Other? {
      Relay.Arrivals(m.relay, e.step);
      hide Relay.Next;
    }
  }

  /** Whatever changes an entry is the step of some session. */
  lemma ChangedBySession(keys: Keys, ms: seq<State>, es: seq<Event>, i: nat, id: Id) returns (s: nat)
    requires Run(keys, ms, es) && i < |es|
    requires !SameEntry(ms[i].relay.tables.devices, ms[i + 1].relay.tables.devices, id)
    ensures StepOf(ms[i], es[i], s)
  {
    SendersKnown(keys, ms, es, i);
    DevicesAfter(keys, ms[i], es[i]);
    assert es[i].Other? && es[i].step.Admit? ==> es[i].step.call in ms[i].relay.calls;
    hide Next;
    match es[i]
    case Greet(t, _) => s := t;
    case Join(t) => s := t;
    case Update(t, _) => s := t;
    case Ask(t, _, _) => s := t;
    case Other(step) => s := ms[i].sender[step.call];
  }

  // ---------------------------------------------------------------------------
  // One identity at a time
  // ---------------------------------------------------------------------------

  /** Every entry leads to the session that is bound to its identity. */
  predicate OneIdentity(m: State) {
    && (forall s :: s in m.joining ==> s !in m.bound)
    && (forall id :: id in m.relay.tables.devices ==>
          m.relay.tables.devices[id].channel in m.bound && m.bound[m.relay.tables.devices[id].channel] == id)
  }

  lemma AdmitKeepsChannels(m: Relay.State, k: nat)
    requires k in m.calls
    ensures forall id :: id in Relay.DoAdmit(m, k).tables.devices ==>
              id in m.tables.devices && Relay.DoAdmit(m, k).tables.devices[id].channel == m.tables.devices[id].channel
  {}

  lemma StepKeepsIdentity(keys: Keys, m: State, e: Event)
    requires OneIdentity(m) && Enabled(keys, m, e)
    ensures OneIdentity(Next(keys, m, e))
  {
    DevicesAfter(keys, m, e);
    if e.Other? {
      if e.step.Admit? {
        AdmitKeepsChannels(m.relay, e.step.call);
      }
      hide Relay.Next, Relay.DoAdmit;
    } else {
      hide Relay.Next;
    }
  }

  /** In every run, at most one entry leads to a session, and that is the entry of the identity it is bound to. */
  lemma {:induction false} AlwaysOneIdentity(keys: Keys, ms: seq<State>, es: seq<Event>, i: nat)
    requires Run(keys, ms, es) && i <= |es|
    ensures OneIdentity(ms[i])
    decreases i
  {
    hide Enabled, Next;
    if i > 0 {
      hide OneIdentity;
      AlwaysOneIdentity(keys, ms, es, i - 1);
      StepKeepsIdentity(keys, ms[i - 1], es[i - 1]);
    }
  }

  // ---------------------------------------------------------------------------
  // A session's frames are made of these steps
  // ---------------------------------------------------------------------------

  ghost predicate CanDo(keys: Keys, m: State, es: seq<Event>)
    decreases |es|
  {
    es == [] || (Enabled(keys, m, es[0]) && CanDo(keys, Next(keys, m, es[0]), es[1..]))
  }

  ghost function After(keys: Keys, m: State, es: seq<Event>): State
    requires CanDo(keys, m, es)
    decreases |es|
  {
    if es == [] then m else After(keys, Next(keys, m, es[0]), es[1..])
  }

  lemma {:induction false} CanDoMore(keys: Keys, m: State, es: seq<Event>, e: Event)
    requires CanDo(keys, m, es) && Enabled(keys, After(keys, m, es), e)
    ensures CanDo(keys, m, es + [e]) && After(keys, m, es + [e]) == Next(keys, After(keys, m, es), e)
    decreases |es|
  {
    hide Enabled, Next;
    if es == [] {
      assert es + [e] == [e] && [e][1..] == [];
    } else {
      assert (es + [e])[1..] == es[1..] + [e];
      CanDoMore(keys, Next(keys, m, es[0]), es[1..], e);
    }
  }

  /** The session as `Sessions` sees it. */
  function BindingOf(m: State, s: nat): Binding {
    Binding(m.relay.tables, if s in m.bound then Some(m.bound[s]) else None)
  }

  function Now(m: State, k: nat): Moment {
    Moment(m.relay.now, m.relay.closed, k)
  }

  lemma GreetStep(keys: Keys, m: State, s: nat, iAm: IAm)
    requires s !in m.joining && Proven(SettingOf(keys, s), iAm)
    ensures Enabled(keys, m, Greet(s, iAm))
    ensures var m' := Next(keys, m, Greet(s, iAm));
            && m'.bound == m.bound - {s} && s in m'.joining && m'.joining[s] == iAm && m'.relay.now == m.relay.now
            && m'.relay.tables == if s in m.bound then m.relay.tables.Unregister(m.bound[s]) else m.relay.tables
  {
    hide Proven, Tables.Unregister;
  }

  lemma JoinStep(keys: Keys, m: State, s: nat)
    requires s in m.joining
    ensures Enabled(keys, m, Join(s))
    ensures var m', iAm := Next(keys, m, Join(s)), m.joining[s];
            && s in m'.bound && m'.bound[s] == Id(iAm.id52)
            && m'.relay.tables == m.relay.tables.Register(Id(iAm.id52), Each(keys.read, iAm.commits), Responses(iAm.recent), s,
                                                          m.relay.now)
  {
    hide Tables.Register, Each, Responses;
  }

  lemma IAmSteps(keys: Keys, m: State, s: nat, iAm: IAm)
    requires s !in m.joining && Proven(SettingOf(keys, s), iAm)
    ensures Enabled(keys, m, Greet(s, iAm)) && Enabled(keys, Next(keys, m, Greet(s, iAm)), Join(s))
    ensures BindingOf(Next(keys, Next(keys, m, Greet(s, iAm)), Join(s)), s) ==
            OnIAm(SettingOf(keys, s), BindingOf(m, s), iAm, m.relay.now).0
  {
    hide Enabled, Next, Proven, Tables.Register, Tables.Unregister, Each, Responses;
    GreetStep(keys, m, s, iAm);
    JoinStep(keys, Next(keys, m, Greet(s, iAm)), s);
  }

  lemma IAmInBlocks(keys: Keys, m: State, s: nat, iAm: IAm)
    requires s !in m.joining && Proven(SettingOf(keys, s), iAm)
    ensures CanDo(keys, m, [Greet(s, iAm), Join(s)])
    ensures BindingOf(After(keys, m, [Greet(s, iAm), Join(s)]), s) ==
            OnIAm(SettingOf(keys, s), BindingOf(m, s), iAm, m.relay.now).0
  {
    hide Enabled, Next, OnIAm;
    var e1, e2 := Greet(s, iAm), Join(s);
    IAmSteps(keys, m, s, iAm);
    assert [] + [e1] == [e1] && [e1] + [e2] == [e1, e2];
    CanDoMore(keys, m, [], e1);
    CanDoMore(keys, m, [e1], e2);
  }

  lemma UpdateInBlocks(keys: Keys, m: State, s: nat, update: UpdateCommits)
    requires s !in m.joining
    ensures CanDo(keys, m, [Update(s, update)])
    ensures BindingOf(After(keys, m, [Update(s, update)]), s) == OnUpdate(SettingOf(keys, s), BindingOf(m, s), update)
  {
    var e := Update(s, update);
    assert BindingOf(Next(keys, m, e), s) == OnUpdate(SettingOf(keys, s), BindingOf(m, s), update);
    assert Enabled(keys, m, e);
    hide Enabled, Next, OnUpdate;
    assert [] + [e] == [e];
    CanDoMore(keys, m, [], e);
  }

  /** Everything but the tables and the calls is as it was. */
  predicate Quiet(m: State, m': State) {
    m'.bound == m.bound && m'.joining == m.joining && m'.relay.now == m.relay.now && m'.relay.closed == m.relay.closed
  }

  /** The call is this SEND's: it is for the device, shows the preimage and carries the payload that the frame names. */
  predicate Sent(call: Relay.Call, send: Send) {
    call.to.bytes == send.toId && call.preimage.bytes == send.preimage && call.payload == send.payload
  }

  lemma AskEffect(keys: Keys, m: State, s: nat, k: nat, send: Send)
    requires s !in m.joining && k !in m.relay.calls
    ensures Enabled(keys, m, Ask(s, k, send))
    ensures var m' := Next(keys, m, Ask(s, k, send));
            && Quiet(m, m') && m'.relay.tables == m.relay.tables
            && Relay.At(m'.relay, k, Relay.Checking)
            && Sent(m'.relay.calls[k], send)
  {}

  lemma CheckEffect(keys: Keys, m: State, k: nat)
    requires Relay.At(m.relay, k, Relay.Checking)
    ensures Enabled(keys, m, Other(Relay.Check(k)))
    ensures var m' := Next(keys, m, Other(Relay.Check(k)));
            var (tables, hit) := m.relay.tables.TakeCached(m.relay.calls[k].preimage, m.relay.now);
            && Quiet(m, m') && m'.relay.tables == tables
            && k in m'.relay.calls && Relay.SameCall(m.relay.calls[k], m'.relay.calls[k])
            && m'.relay.calls[k].pc == if hit.None? then Relay.Admitting else Relay.Returned(SEND_OK, hit.value)
  {}

  lemma AdmitEffect(keys: Keys, m: State, k: nat)
    requires Relay.At(m.relay, k, Relay.Admitting)
    ensures Enabled(keys, m, Other(Relay.Admit(k)))
    ensures var m', call := Next(keys, m, Other(Relay.Admit(k))), m.relay.calls[k];
            var (tables, admission) := m.relay.tables.Admit(call.to, Sha256(call.preimage), m.relay.closed);
            && Quiet(m, m') && m'.relay.tables == tables
            && k in m'.relay.calls && Relay.SameCall(call, m'.relay.calls[k])
            && match admission
               case NotConnected => m'.relay.calls[k].pc == Relay.Returned(1, [])
               case InvalidPreimage => m'.relay.calls[k].pc == Relay.Returned(2, [])
               case Admitted(msgId, channel) =>
                 && m'.relay.calls[k].pc == Relay.Inserting && m'.relay.calls[k].ticket.Some?
                 && m'.relay.calls[k].ticket.value.msgId == msgId && m'.relay.calls[k].ticket.value.channel == channel
  {}

  lemma InsertEffect(keys: Keys, m: State, k: nat)
    requires Relay.At(m.relay, k, Relay.Inserting) && m.relay.calls[k].ticket.Some?
    ensures Enabled(keys, m, Other(Relay.Insert(k)))
    ensures var m', call := Next(keys, m, Other(Relay.Insert(k))), m.relay.calls[k];
            && Quiet(m, m') && m'.relay.tables == m.relay.tables.InsertPending(call.ticket.value.msgId, call.preimage, k)
            && Relay.At(m'.relay, k, Relay.Enqueuing) && Relay.SameCall(call, m'.relay.calls[k])
            && m'.relay.calls[k].ticket == call.ticket
  {}

  /**
   * What a frame leaves to be done is what is left of the run that the frame has begun: call `k` for a SEND,
   * run `a` of handle_ack for an ACK.
   */
  predicate LeftOf(m: Relay.State, k: nat, a: nat, work: Work) {
    match work
    case Nothing => true
    case Result(status, payload) => Relay.At(m, k, Relay.Returned(status, payload))
    case Hand(channel, msgId, preimage, payload) =>
      && Relay.At(m, k, Relay.Enqueuing) && m.calls[k].preimage == preimage && m.calls[k].payload == payload
      && m.calls[k].ticket.Some? && m.calls[k].ticket.value.msgId == msgId && m.calls[k].ticket.value.channel == channel
    case Complete(call, response) =>
      a in m.acks && m.acks[a].pc == Relay.Completing(call) && m.acks[a].response == response
  }

  /** Handing a message over puts it, as the SEND said it, into the channel, if there is one with room. */
  lemma HandOver(m: Relay.State, k: nat, a: nat, send: Send, work: Work)
    requires k in m.calls && Sent(m.calls[k], send) && work.Hand? && LeftOf(m, k, a, work)
    requires work.channel !in m.closed && |m.Queue(work.channel)| < 32
    ensures Relay.Enabled(m, Relay.Enqueue(k))
    ensures var m' := Relay.Next(m, Relay.Enqueue(k));
            && Relay.At(m', k, Relay.Waiting)
            && m'.Queue(work.channel) ==
               m.Queue(work.channel) + [Relay.Delivery(work.msgId, Preimage(send.preimage), send.payload)]
  {}

  /** Completing an answered send gives it the response that the ACK brought. */
  lemma CompleteWith(m: Relay.State, k: nat, a: nat, work: Work)
    requires work.Complete? && LeftOf(m, k, a, work)
    ensures Relay.Enabled(m, Relay.AckComplete(a))
    ensures work.call in m.calls ==>
              var m' := Relay.Next(m, Relay.AckComplete(a));
              work.call in m'.calls && m'.calls[work.call].slot == Relay.Full(work.response)
  {}

  /** The steps of a SEND's `route_message` up to where it returns or hands its message over. */
  predicate SendSteps(s: nat, k: nat, send: Send, es: seq<Event>) {
    || es == [Ask(s, k, send), Other(Relay.Check(k))]
    || es == [Ask(s, k, send), Other(Relay.Check(k)), Other(Relay.Admit(k))]
    || es == [Ask(s, k, send), Other(Relay.Check(k)), Other(Relay.Admit(k)), Other(Relay.Insert(k))]
  }

  /**
   * A SEND asks, looks into the cache, and if it must is admitted and recorded as pending. It comes to a
   * result exactly if its call has returned that, and to a message exactly if its call is to hand it over.
   */
  lemma SendInBlocks(keys: Keys, m: State, s: nat, k: nat, a: nat, send: Send) returns (es: seq<Event>)
    requires s !in m.joining && k !in m.relay.calls
    ensures SendSteps(s, k, send, es)
    ensures CanDo(keys, m, es) && BindingOf(After(keys, m, es), s) == OnSend(BindingOf(m, s), send, Now(m, k)).0
    ensures var m', work := After(keys, m, es).relay, OnSend(BindingOf(m, s), send, Now(m, k)).1;
            k in m'.calls && Sent(m'.calls[k], send) && (work.Result? || work.Hand?) && LeftOf(m', k, a, work)
  {
    hide Enabled, Next, CanDo, After, Sent;
    var e1, e2, e3, e4 := Ask(s, k, send), Other(Relay.Check(k)), Other(Relay.Admit(k)), Other(Relay.Insert(k));
    AskEffect(keys, m, s, k, send);
    var m1 := Next(keys, m, e1);
    CheckEffect(keys, m1, k);
    var m2 := Next(keys, m1, e2);
    SentAs(send, m1.relay.calls[k], m2.relay.calls[k]);
    var (looked, hit) := m.relay.tables.TakeCached(Preimage(send.preimage), m.relay.now);
    NoneDone(keys, m);
    CanDoMore(keys, m, [], e1);
    CanDoMore(keys, m, [] + [e1], e2);
    es := [e1, e2];
    assert [] + [e1] + [e2] == es;
    if hit.None? {
      AdmitEffect(keys, m2, k);
      var m3 := Next(keys, m2, e3);
      SentAs(send, m2.relay.calls[k], m3.relay.calls[k]);
      CanDoMore(keys, m, es, e3);
      es := [e1, e2, e3];
      assert [e1, e2] + [e3] == es;
      if looked.Admit(Id(send.toId), Sha256(Preimage(send.preimage)), m.relay.closed).1.Admitted? {
        InsertEffect(keys, m3, k);
        SentAs(send, m3.relay.calls[k], Next(keys, m3, e4).relay.calls[k]);
        CanDoMore(keys, m, es, e4);
        es := [e1, e2, e3, e4];
        assert [e1, e2, e3] + [e4] == es;
      }
    }
  }

  lemma SentAs(send: Send, c: Relay.Call, c': Relay.Call)
    requires Sent(c, send)
    ensures c.to == Id(send.toId) && c.preimage == Preimage(send.preimage) && c.payload == send.payload
    ensures Relay.SameCall(c, c') ==> Sent(c', send)
  {}

  lemma NoneDone(keys: Keys, m: State)
    ensures CanDo(keys, m, []) && After(keys, m, []) == m
  {}

  lemma ArriveEffect(keys: Keys, m: State, s: nat, a: nat, ack: Ack)
    requires a !in m.relay.acks
    ensures Enabled(keys, m, Other(Relay.AckArrive(a, s, ack.msgId, ack.payload)))
    ensures var m' := Next(keys, m, Other(Relay.AckArrive(a, s, ack.msgId, ack.payload)));
            && Quiet(m, m') && m'.relay.tables == m.relay.tables
            && a in m'.relay.acks && m'.relay.acks[a] == Relay.Ack(s, ack.msgId, ack.payload, Relay.Taking)
  {}

  lemma TakeEffect(keys: Keys, m: State, a: nat)
    requires a in m.relay.acks && m.relay.acks[a].pc == Relay.Taking
    ensures Enabled(keys, m, Other(Relay.AckTake(a)))
    ensures var m' := Next(keys, m, Other(Relay.AckTake(a)));
            var (tables, entry) := m.relay.tables.TakePending(m.relay.acks[a].msgId);
            && Quiet(m, m') && m'.relay.tables == tables
            && a in m'.relay.acks
            && m'.relay.acks[a] == m.relay.acks[a].(pc := if entry.Some? then Relay.Storing(entry.value) else Relay.Finished)
  {}

  lemma StoreEffect(keys: Keys, m: State, a: nat)
    requires a in m.relay.acks && m.relay.acks[a].pc.Storing?
    ensures Enabled(keys, m, Other(Relay.AckStore(a)))
    ensures var m', ack := Next(keys, m, Other(Relay.AckStore(a))), m.relay.acks[a];
            && Quiet(m, m') && m'.relay.tables == m.relay.tables.StoreResponse(ack.pc.entry.preimage, ack.response, m.relay.now)
            && a in m'.relay.acks && m'.relay.acks[a] == ack.(pc := Relay.Completing(ack.pc.entry.call))
  {}

  /** The steps of an ACK's `handle_ack` up to where it is over or completes a send. */
  predicate AckSteps(s: nat, a: nat, ack: Ack, es: seq<Event>) {
    var arrive := Other(Relay.AckArrive(a, s, ack.msgId, ack.payload));
    es == [arrive, Other(Relay.AckTake(a))] || es == [arrive, Other(Relay.AckTake(a)), Other(Relay.AckStore(a))]
  }

  /**
   * An ACK takes the pending entry, and stores the response if there was one. It comes to completing a call
   * with a response exactly if the id was pending for that call and that is the response it brings.
   */
  lemma AckInBlocks(keys: Keys, m: State, s: nat, a: nat, ack: Ack, k: nat) returns (es: seq<Event>)
    requires a !in m.relay.acks
    ensures AckSteps(s, a, ack, es)
    ensures CanDo(keys, m, es) && BindingOf(After(keys, m, es), s) == OnAck(BindingOf(m, s), ack, Now(m, k)).0
    ensures var work := OnAck(BindingOf(m, s), ack, Now(m, k)).1;
            && LeftOf(After(keys, m, es).relay, k, a, work)
            && (forall c, r :: work == Complete(c, r) <==>
                  ack.msgId in m.relay.tables.pending && m.relay.tables.pending[ack.msgId].call == c && r == ack.payload)
            && (work == Nothing <==> ack.msgId !in m.relay.tables.pending)
  {
    hide Enabled, Next, CanDo, After;
    var e1, e2, e3 := Other(Relay.AckArrive(a, s, ack.msgId, ack.payload)), Other(Relay.AckTake(a)), Other(Relay.AckStore(a));
    ArriveEffect(keys, m, s, a, ack);
    var m1 := Next(keys, m, e1);
    TakeEffect(keys, m1, a);
    var m2 := Next(keys, m1, e2);
    NoneDone(keys, m);
    CanDoMore(keys, m, [], e1);
    CanDoMore(keys, m, [] + [e1], e2);
    es := [e1, e2];
    assert [] + [e1] + [e2] == es;
    if ack.msgId in m.relay.tables.pending {
      StoreEffect(keys, m2, a);
      CanDoMore(keys, m, es, e3);
      es := [e1, e2, e3];
      assert [e1, e2] + [e3] == es;
    }
  }

  /** The steps of this machine that a frame is made of, by its type. */
  predicate FrameSteps(f: Frame, s: nat, k: nat, a: nat, es: seq<Event>) {
    match f.msgType
    case 2 => IAm.FromBytes(f.payload).Ok? && var m := IAm.FromBytes(f.payload).value; es == [Greet(s, m), Join(s)]
    case 3 => Send.FromBytes(f.payload).Ok? && SendSteps(s, k, Send.FromBytes(f.payload).value, es)
    case 5 => Ack.FromBytes(f.payload).Ok? && AckSteps(s, a, Ack.FromBytes(f.payload).value, es)
    case 8 => UpdateCommits.FromBytes(f.payload).Ok? && es == [Update(s, UpdateCommits.FromBytes(f.payload).value)]
    case _ => es == []
  }

  /**
   * Whatever a session does with a frame that does not end it, it does in steps of this machine: those of
   * the frame's type, taken without interruption, do to tables and identity what the frame does, and what
   * it leaves to be done is what is left of the run of `route_message` or `handle_ack` that it has begun.
   */
  lemma FrameInBlocks(keys: Keys, m: State, s: nat, f: Frame, k: nat, a: nat) returns (es: seq<Event>)
    requires s !in m.joining && k !in m.relay.calls && a !in m.relay.acks
    requires OnFrame(SettingOf(keys, s), BindingOf(m, s), f, Now(m, k)).1.Proceed?
    ensures CanDo(keys, m, es) && FrameSteps(f, s, k, a, es)
    ensures BindingOf(After(keys, m, es), s) == OnFrame(SettingOf(keys, s), BindingOf(m, s), f, Now(m, k)).0
    ensures var m', work := After(keys, m, es).relay, OnFrame(SettingOf(keys, s), BindingOf(m, s), f, Now(m, k)).1.work;
            && LeftOf(m', k, a, work)
            && (f.msgType == 3 ==>
                  (work.Result? || work.Hand?) && k in m'.calls && Sent(m'.calls[k], Send.FromBytes(f.payload).value))
            && (f.msgType == 5 ==> (work == Nothing <==> Ack.FromBytes(f.payload).value.msgId !in m.relay.tables.pending))
            && (f.msgType != 3 && f.msgType != 5 ==> work == Nothing)
  {
    hide Enabled, Next, CanDo, After, OnSend, OnAck, OnUpdate, SendSteps, AckSteps, LeftOf, Sent;
    hide IAm.FromBytes, Send.FromBytes, Ack.FromBytes, UpdateCommits.FromBytes;
    NoneDone(keys, m);
    NothingLeft(m.relay, k, a);
    es := [];
    if f.msgType == MSG_I_AM {
      es := [Greet(s, IAm.FromBytes(f.payload).value), Join(s)];
      IAmInBlocks(keys, m, s, IAm.FromBytes(f.payload).value);
      NothingLeft(After(keys, m, es).relay, k, a);
    } else if f.msgType == MSG_SEND {
      es := SendInBlocks(keys, m, s, k, a, Send.FromBytes(f.payload).value);
    } else if f.msgType == MSG_ACK {
      es := AckInBlocks(keys, m, s, a, Ack.FromBytes(f.payload).value, k);
    } else if f.msgType == MSG_UPDATE_COMMITS {
      es := [Update(s, UpdateCommits.FromBytes(f.payload).value)];
      UpdateInBlocks(keys, m, s, UpdateCommits.FromBytes(f.payload).value);
      NothingLeft(After(keys, m, es).relay, k, a);
    }
  }

  lemma NothingLeft(m: Relay.State, k: nat, a: nat)
    ensures LeftOf(m, k, a, Nothing)
  {}
}
