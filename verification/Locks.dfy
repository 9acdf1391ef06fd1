/**
 * The router's four locks. Any number of tasks run its operations at once; each takes and
 * drops locks in the order of the program text, and waits while another task holds the lock it
 * wants. Some task that holds a lock can always go on.
 */
module Locks {

  datatype Lock = Devices | NextId | ResponseCache | Pending

  datatype Action = Take(lock: Lock) | Drop(lock: Lock)

  /** The router's operations, with the branches that decide which locks they take. */
  datatype Operation =
    | Register(loads: bool)
    | Unregister
    | AddCommits
    | HandleAck(known: bool)
    | RouteMessage(hit: bool, admitted: bool, enqueued: bool)
    | CleanupCache

  function Program(op: Operation): seq<Action> {
    match op
    case Register(loads) =>
      [Take(Devices)] + (if loads then [Take(ResponseCache), Drop(ResponseCache)] else []) + [Drop(Devices)]
    case Unregister => [Take(Devices), Drop(Devices)]
    case AddCommits => [Take(Devices), Drop(Devices)]
    case HandleAck(known) =>
      [Take(Pending), Drop(Pending)] + if known then [Take(ResponseCache), Drop(ResponseCache)] else []
    case RouteMessage(hit, admitted, enqueued) =>
      [Take(ResponseCache), Drop(ResponseCache)]
      + if hit then []
        else if !admitted then [Take(Devices), Drop(Devices)]
        else [Take(Devices), Take(NextId), Drop(NextId), Drop(Devices), Take(Pending), Drop(Pending)]
             + if enqueued then [] else [Take(Pending), Drop(Pending)]
    case CleanupCache => [Take(ResponseCache), Drop(ResponseCache)]
  }

  /** What each task has still to do, and who holds which lock. */
  datatype State = State(tasks: map<nat, seq<Action>>, holder: map<Lock, nat>)

  datatype Event = Spawn(task: nat, op: Operation) | Go(task: nat)

  predicate CanGo(m: State, t: nat) {
    t in m.tasks && m.tasks[t] != [] && (m.tasks[t][0].Take? ==> m.tasks[t][0].lock !in m.holder)
  }

  /** Its next action is to take a lock that is held. */
  predicate Waits(m: State, t: nat) {
    t in m.tasks && m.tasks[t] != [] && m.tasks[t][0].Take? && m.tasks[t][0].lock in m.holder
  }

  predicate Enabled(m: State, e: Event) {
    match e
    case Spawn(t, _) => t !in m.tasks
    case Go(t) => CanGo(m, t)
  }

  function Next(m: State, e: Event): State
    requires Enabled(m, e)
  {
    match e
    case Spawn(t, op) => m.(tasks := m.tasks[t := Program(op)])
    case Go(t) =>
      var lock := m.tasks[t][0].lock;
      State(m.tasks[t := m.tasks[t][1..]],
            if m.tasks[t][0].Take? then m.holder[lock := t] else m.holder - {lock})
  }

  const START := State(map[], map[])

  ghost predicate Run(ms: seq<State>, es: seq<Event>) {
    && |ms| == |es| + 1 && ms[0] == START
    && forall i :: 0 <= i < |es| ==> Enabled(ms[i], es[i]) && ms[i + 1] == Next(ms[i], es[i])
  }

  // ---------------------------------------------------------------------------
  // The lock order
  // ---------------------------------------------------------------------------

  function Rank(l: Lock): nat {
    match l
    case Devices => 0
    case NextId => 1
    case ResponseCache => 2
    case Pending => 3
  }

  /** A program that starts with these locks takes locks only in rank order, drops what it holds, and ends with none. */
  predicate InOrder(held: set<Lock>, program: seq<Action>)
    decreases |program|
  {
    if program == [] then held == {}
    else match program[0]
      case Take(l) => (forall h :: h in held ==> Rank(h) < Rank(l)) && InOrder(held + {l}, program[1..])
      case Drop(l) => l in held && InOrder(held - {l}, program[1..])
  }

  lemma ThenInOrder(held: set<Lock>, a: seq<Action>, b: seq<Action>)
    requires InOrder(held, a) && InOrder({}, b)
    ensures InOrder(held, a + b)
    decreases |a|
  {
    if a == [] {
      assert a + b == b;
    } else {
      assert (a + b)[1..] == a[1..] + b;
      match a[0]
      case Take(l) => ThenInOrder(held + {l}, a[1..], b);
      case Drop(l) => ThenInOrder(held - {l}, a[1..], b);
    }
  }

  lemma OneLock(l: Lock)
    ensures InOrder({}, [Take(l), Drop(l)])
  {
    assert [Take(l), Drop(l)][1..] == [Drop(l)];
    assert {} + {l} - {l} == {};
    assert InOrder({l}, [Drop(l)]);
  }

  lemma TwoLocks(l: Lock, k: Lock)
    requires Rank(l) < Rank(k)
    ensures InOrder({}, [Take(l), Take(k), Drop(k), Drop(l)])
  {
    var p := [Take(l), Take(k), Drop(k), Drop(l)];
    assert p[1..] == [Take(k), Drop(k), Drop(l)] && p[1..][1..] == [Drop(k), Drop(l)] && p[1..][1..][1..] == [Drop(l)];
    assert {l} + {k} - {k} == {l};
    assert InOrder({l}, [Drop(l)]);
    assert InOrder({l} + {k}, [Drop(k), Drop(l)]);
    assert InOrder({l}, [Take(k), Drop(k), Drop(l)]);
    assert {} + {l} == {l};
  }

  /** Every operation respects the order: only the devices lock is held while another is taken. */
  lemma ProgramInOrder(op: Operation)
    ensures InOrder({}, Program(op))
  {
    OneLock(Devices);
    OneLock(ResponseCache);
    OneLock(Pending);
    TwoLocks(Devices, ResponseCache);
    hide InOrder;
    match op
    case Register(loads) =>
      assert Program(op) == if loads then [Take(Devices), Take(ResponseCache), Drop(ResponseCache), Drop(Devices)]
                            else [Take(Devices), Drop(Devices)];
    case HandleAck(known) =>
      ThenInOrder({}, [Take(Pending), Drop(Pending)], [Take(ResponseCache), Drop(ResponseCache)]);
      assert known || Program(op) == [Take(Pending), Drop(Pending)];
    case RouteMessage(hit, admitted, enqueued) => RoutingInOrder(hit, admitted, enqueued);
    case _ =>
  }

  lemma RoutingInOrder(hit: bool, admitted: bool, enqueued: bool)
    ensures InOrder({}, Program(RouteMessage(hit, admitted, enqueued)))
  {
    var p := Program(RouteMessage(hit, admitted, enqueued));
    var devices, cache := [Take(Devices), Drop(Devices)], [Take(ResponseCache), Drop(ResponseCache)];
    var pending, admit := [Take(Pending), Drop(Pending)], [Take(Devices), Take(NextId), Drop(NextId), Drop(Devices)];
    OneLock(Devices);
    OneLock(ResponseCache);
    OneLock(Pending);
    TwoLocks(Devices, NextId);
    hide InOrder;
    if hit {
      assert p == cache;
    } else if !admitted {
      ThenInOrder({}, cache, devices);
      assert p == cache + devices;
    } else {
      ThenInOrder({}, pending, pending);
      var rest := if enqueued then pending else pending + pending;
      ThenInOrder({}, admit, rest);
      ThenInOrder({}, cache, admit + rest);
      assert p == cache + (admit + rest);
    }
  }

  // ---------------------------------------------------------------------------
  // No deadlock
  // ---------------------------------------------------------------------------

  function HeldBy(holder: map<Lock, nat>, t: nat): set<Lock> {
    set l | l in holder && holder[l] == t
  }

  predicate Inv(m: State) {
    && (forall l :: l in m.holder ==> m.holder[l] in m.tasks)
    && (forall t :: t in m.tasks ==> InOrder(HeldBy(m.holder, t), m.tasks[t]))
  }

  lemma GoKeeps(m: State, t: nat)
    requires Inv(m) && CanGo(m, t)
    ensures Inv(Next(m, Go(t)))
  {
    var m' := Next(m, Go(t));
    var l := m.tasks[t][0].lock;
    forall s | s in m'.tasks
      ensures InOrder(HeldBy(m'.holder, s), m'.tasks[s])
    {
      if s == t {
        assert InOrder(HeldBy(m.holder, t), m.tasks[t]);
        assert HeldBy(m'.holder, t) == if m.tasks[t][0].Take? then HeldBy(m.holder, t) + {l} else HeldBy(m.holder, t) - {l};
      } else {
        OthersKeep(m, t, s);
      }
    }
  }

  lemma OthersKeep(m: State, t: nat, s: nat)
    requires Inv(m) && CanGo(m, t) && s != t
    ensures HeldBy(Next(m, Go(t)).holder, s) == HeldBy(m.holder, s)
  {
    var l := m.tasks[t][0].lock;
    if m.tasks[t][0].Drop? {
      assert InOrder(HeldBy(m.holder, t), m.tasks[t]);
      assert m.holder[l] == t;
    }
  }

  lemma Step(m: State, e: Event)
    requires Inv(m) && Enabled(m, e)
    ensures Inv(Next(m, e))
  {
    match e
    case Spawn(t, op) =>
      ProgramInOrder(op);
      assert HeldBy(m.holder, t) == {};
    case Go(t) => GoKeeps(m, t);
  }

  lemma {:induction false} RunKeepsInv(ms: seq<State>, es: seq<Event>, i: nat)
    requires Run(ms, es) && i <= |es|
    ensures Inv(ms[i])
    decreases i
  {
    hide Next, Enabled;
    if i > 0 {
      hide Inv;
      RunKeepsInv(ms, es, i - 1);
      Step(ms[i - 1], es[i - 1]);
    }
  }

  /** A held lock of the highest rank. */
  lemma {:induction false} HighestHeld(locks: set<Lock>) returns (top: Lock)
    requires locks != {}
    ensures top in locks && forall l :: l in locks ==> Rank(l) <= Rank(top)
    decreases locks
  {
    var l :| l in locks;
    if locks == {l} {
      top := l;
    } else {
      var rest := HighestHeld(locks - {l});
      top := if Rank(l) > Rank(rest) then l else rest;
      assert forall k :: k in locks ==> k == l || k in locks - {l};
    }
  }

  /**
   * In every reachable state in which a task waits for a lock, some task that holds one can
   * take a step, whatever else runs.
   */
  lemma NoDeadlock(ms: seq<State>, es: seq<Event>, i: nat, waiting: nat) returns (going: nat, lock: Lock)
    requires Run(ms, es) && i <= |es| && Waits(ms[i], waiting)
    ensures lock in ms[i].holder && ms[i].holder[lock] == going && CanGo(ms[i], going)
  {
    RunKeepsInv(ms, es, i);
    var m := ms[i];
    lock := HighestHeld(m.holder.Keys);
    going := m.holder[lock];
    assert lock in HeldBy(m.holder, going);
    assert InOrder(HeldBy(m.holder, going), m.tasks[going]);
  }
}
