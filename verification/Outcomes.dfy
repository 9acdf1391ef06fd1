/**
 * What the status of a send tells its sender about the message: refused, handed to the device's session
 * or never handed over.
 */
module Outcomes {
  import opened Types
  import opened Relay
  import opened Rendezvous
  import Wire

  /** The call's message has gone into the device's channel, as far as its program counter and result tell. */
  predicate HandedOver(m: State, k: nat) {
    k in m.calls &&
      match m.calls[k].pc
      case Waiting => true
      case Returned(status, _) => m.calls[k].ticket.Some? && status != 4
      case _ => false
  }

  /** In the first `i` steps, the call's message has gone into the channel. */
  ghost predicate WentOut(ms: seq<State>, es: seq<Event>, i: nat, k: nat)
    requires |ms| == |es| + 1 && i <= |es|
  {
    exists t :: 0 <= t < i && es[t] == Enqueue(k) && At(ms[t + 1], k, Waiting)
  }

  predicate OwnStep(e: Event, k: nat) {
    && (e.Check? || e.Admit? || e.Insert? || e.Enqueue? || e.Remove? || e.Receive? || e.SeeClosed? || e.TimeOut?)
    && e.call == k
  }

  lemma HandedByOwnStep(m: State, e: Event, k: nat)
    requires Enabled(m, e) && OwnStep(e, k) && CallShape(m.calls[k])
    requires m.calls[k].pc == Waiting ==> m.calls[k].slot != Dropped
    ensures HandedOver(Next(m, e), k) <==> HandedOver(m, k) || (e == Enqueue(k) && At(Next(m, e), k, Waiting))
  {}

  lemma HandedStep(m: State, e: Event, k: nat)
    requires Enabled(m, e) && m.serials <= Wire.U32_SIZE && Inv(m)
    ensures HandedOver(Next(m, e), k) <==> HandedOver(m, k) || (e == Enqueue(k) && At(Next(m, e), k, Waiting))
  {
    if k !in m.calls {
      NotHandedAtFirst(m, e, k);
    } else if OwnStep(e, k) {
      ShapeOf(m, k);
      hide Custody, Tickets;
      HandedByOwnStep(m, e, k);
    } else {
      hide Inv;
      PcFrame(m, e);
      CallPersists(m, e, k);
      hide Next;
    }
  }

  lemma NotHandedAtFirst(m: State, e: Event, k: nat)
    requires Enabled(m, e) && k !in m.calls
    ensures !HandedOver(Next(m, e), k)
  {
    Arrivals(m, e);
    if !e.Invoke? {
      hide Next;
    }
  }

  /**
   * In every run, the message of a send has gone into the device's channel exactly if the send is waiting, or
   * was admitted and has returned with another status than 4, DISCONNECTED: with a response, or with 3, TIMEOUT.
   */
  lemma {:induction false} HandedOverExactly(ms: seq<State>, es: seq<Event>, i: nat, k: nat)
    requires Run(ms, es) && i <= |es| && ms[i].serials <= Wire.U32_SIZE
    ensures WentOut(ms, es, i, k) <==> HandedOver(ms[i], k)
    decreases i
  {
    hide Enabled, Next, HandedOver, At, Inv;
    if i > 0 {
      Rendezvous.RunKeepsInv(ms, es, i - 1);
      ChannelsGrow(ms[i - 1], es[i - 1]);
      HandedOverExactly(ms, es, i - 1, k);
      HandedStep(ms[i - 1], es[i - 1], k);
      WentOutMore(ms, es, i, k);
    } else {
      NothingHanded(k);
    }
  }

  lemma ChannelsGrow(m: State, e: Event)
    requires Enabled(m, e)
    ensures m.serials <= Next(m, e).serials
  {
    ChannelsFrame(m, e);
    if !e.Admit? {
      hide Next;
    }
  }

  lemma WentOutMore(ms: seq<State>, es: seq<Event>, i: nat, k: nat)
    requires |ms| == |es| + 1 && 0 < i <= |es|
    ensures WentOut(ms, es, i, k) <==> WentOut(ms, es, i - 1, k) || (es[i - 1] == Enqueue(k) && At(ms[i], k, Waiting))
  {
    hide At;
  }

  lemma NothingHanded(k: nat)
    ensures !HandedOver(START, k)
  {}

  // ---------------------------------------------------------------------------
  // Which statuses there are
  // ---------------------------------------------------------------------------

  /** A result is a response, or one of four failures without one: 1 and 2 without an admission, 3 and 4 after it. */
  predicate Explained(call: Call) {
    match call.pc
    case Returned(status, payload) =>
      && (status != 0 ==> payload == [])
      && (if call.ticket.None? then status == 0 || status == 1 || status == 2 else status == 0 || status == 3 || status == 4)
    case _ => true
  }

  lemma ExplainedStep(m: State, e: Event, k: nat)
    requires Enabled(m, e) && Rendezvous.Inv(m) && (k in m.calls ==> Explained(m.calls[k])) && k in Next(m, e).calls
    ensures Explained(Next(m, e).calls[k])
  {
    if k !in m.calls {
      Arrivals(m, e);
      hide Inv;
      if !e.Invoke? {
        hide Next;
      }
    } else if OwnStep(e, k) {
      ShapeOf(m, k);
      hide Inv;
      ExplainedByOwnStep(m, e, k);
    } else {
      hide Inv;
      PcFrame(m, e);
      CallPersists(m, e, k);
      hide Next;
    }
  }

  lemma ExplainedByOwnStep(m: State, e: Event, k: nat)
    requires Enabled(m, e) && OwnStep(e, k) && CallShape(m.calls[k])
    ensures k in Next(m, e).calls && Explained(Next(m, e).calls[k])
  {}

  lemma {:induction false} ResultsExplained(ms: seq<State>, es: seq<Event>, i: nat, k: nat)
    requires Run(ms, es) && i <= |es| && k in ms[i].calls
    ensures Explained(ms[i].calls[k])
    decreases i
  {
    hide Enabled, Next, Explained, Inv;
    if i > 0 {
      Rendezvous.RunKeepsInv(ms, es, i - 1);
      if k in ms[i - 1].calls {
        ResultsExplained(ms, es, i - 1, k);
      }
      ExplainedStep(ms[i - 1], es[i - 1], k);
    }
  }

  /**
   * A send returns with 0 when it finds a cached response or receives one, with 1 and 2 when it is not admitted, with
   * 3 when it stops waiting, and with 4 when the channel is closed before the message goes in, or its one-shot without
   * a response.
   */
  lemma ReturnsBy(m: State, e: Event, k: nat)
    requires Enabled(m, e) && k in m.calls && !m.calls[k].pc.Returned?
    ensures k in Next(m, e).calls
    ensures var pc := Next(m, e).calls[k].pc;
            pc.Returned? ==>
              && (pc.status == 0 <==> e == Check(k) || e == Receive(k))
              && (pc.status == 1 || pc.status == 2 <==> e == Admit(k))
              && (pc.status == 3 <==> e == TimeOut(k))
              && (pc.status == 4 <==> e == Remove(k) || e == SeeClosed(k))
  {
    CallPersists(m, e, k);
    if !OwnStep(e, k) {
      PcFrame(m, e);
      hide Next;
    }
  }

  // ---------------------------------------------------------------------------
  // Channels
  // ---------------------------------------------------------------------------

  lemma QueueStep(m: State, e: Event, ch: nat)
    requires Enabled(m, e) && |m.Queue(ch)| <= 32
    ensures |Next(m, e).Queue(ch)| <= 32
  {
    ChannelsFrame(m, e);
    if !e.Enqueue? && !e.Dequeue? && !e.Close? {
      hide Next;
    }
  }

  /** In every run, no channel holds more than 32 messages. */
  lemma {:induction false} QueuesBounded(ms: seq<State>, es: seq<Event>, i: nat, ch: nat)
    requires Run(ms, es) && i <= |es|
    ensures |ms[i].Queue(ch)| <= 32
    decreases i
  {
    hide Enabled, Next;
    if i > 0 {
      QueuesBounded(ms, es, i - 1, ch);
      QueueStep(ms[i - 1], es[i - 1], ch);
    }
  }

  lemma ClosedStep(m: State, e: Event, ch: nat)
    requires Enabled(m, e) && (ch in m.closed ==> m.Queue(ch) == [])
    ensures ch in Next(m, e).closed ==> Next(m, e).Queue(ch) == []
    ensures ch in m.closed ==> ch in Next(m, e).closed
  {
    ChannelsFrame(m, e);
    if !e.Enqueue? && !e.Dequeue? && !e.Close? {
      hide Next;
    }
  }

  /** In every run, a closed channel stays closed and holds nothing: what was in it is lost, and nothing goes in. */
  lemma {:induction false} ClosedForGood(ms: seq<State>, es: seq<Event>, i: nat, j: nat, ch: nat)
    requires Run(ms, es) && i <= j <= |es|
    ensures ch in ms[j].closed ==> ms[j].Queue(ch) == []
    ensures ch in ms[i].closed ==> ch in ms[j].closed
    decreases j
  {
    hide Enabled, Next;
    if j > 0 {
      ClosedForGood(ms, es, if i < j then i else i - 1, j - 1, ch);
      ClosedStep(ms[j - 1], es[j - 1], ch);
    }
  }

  // ---------------------------------------------------------------------------
  // The clock
  // ---------------------------------------------------------------------------

  /** The time that has passed in these steps. */
  function Elapsed(es: seq<Event>): nat {
    if es == [] then 0 else Elapsed(es[..|es| - 1]) + match es[|es| - 1] case Tick(elapsed) => elapsed case _ => 0
  }

  lemma {:induction false} ClockExactly(ms: seq<State>, es: seq<Event>, i: nat)
    requires Run(ms, es) && i <= |es|
    ensures ms[i].now == Elapsed(es[..i])
    decreases i
  {
    hide Enabled;
    if i > 0 {
      ClockExactly(ms, es, i - 1);
      assert es[..i][..i - 1] == es[..i - 1];
      ClockStep(ms[i - 1], es[i - 1]);
      hide Next;
    }
  }

  lemma ClockStep(m: State, e: Event)
    requires Enabled(m, e)
    ensures Next(m, e).now == m.now + match e case Tick(elapsed) => elapsed case _ => 0
  {
    ChannelsFrame(m, e);
    if !e.Tick? {
      hide Next;
    }
  }
}
