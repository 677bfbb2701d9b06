/**
  Deadlock freedom for any number of threads.

  Every entry point is a sequence of critical sections under the service lock; inside a
  section it calls the process controller, the callback table and the environment
  checker in any order and any number of times. Start-up makes such calls without the
  service lock. The hotplug path holds no lock when it reaches its section, and a degraded
  callback runs after the loader lock is released.
*/
module LockOrder {
  datatype Lock = ServiceLock | ControllerLock | CallbackLock | ControllerLoaderLock | CheckerLoaderLock

  datatype Op = Acquire(lock: Lock) | Release(lock: Lock)

  datatype Thread = Thread(held: set<Lock>, rest: seq<Op>)

  function Rank(l: Lock): nat {
    match l
    case ServiceLock => 0
    case ControllerLock => 1
    case CallbackLock => 2
    case ControllerLoaderLock => 3
    case CheckerLoaderLock => 4
  }

  // ----- Lock traces of the service -----

  /** A call into one of the other objects. loads counts the uses of an extension loader,
      each of which takes its lock, copies a pointer, releases it and only then calls out. */
  datatype Call = Controller(loads: nat) | ControllerInit | Checker(loads: nat) | Callback

  function Loads(l: Lock, n: nat): seq<Op> {
    if n == 0 then [] else [Acquire(l), Release(l)] + Loads(l, n - 1)
  }

  function Trace(c: Call): seq<Op> {
    match c
    case Controller(loads) =>
      [Acquire(ControllerLock)] + (Loads(ControllerLoaderLock, loads) + [Release(ControllerLock)])
    case ControllerInit => Loads(ControllerLoaderLock, 1)
    case Checker(loads) => Loads(CheckerLoaderLock, loads)
    case Callback => Loads(CallbackLock, 1)
  }

  function Traces(calls: seq<Call>): seq<Op> {
    if calls == [] then [] else Trace(calls[0]) + Traces(calls[1..])
  }

  /** A part of a thread's life: calls inside a critical section of the service, or calls
      made without the service lock, as Init makes them while events already arrive. */
  datatype Part = Section(calls: seq<Call>) | Unguarded(calls: seq<Call>)

  function PartTrace(p: Part): seq<Op> {
    match p
    case Section(calls) => [Acquire(ServiceLock)] + (Traces(calls) + [Release(ServiceLock)])
    case Unguarded(calls) => Traces(calls)
  }

  /** A thread: start-up, an IPC thread serving requests, the event thread, the hotplug
      thread, or the timer loop, whose wait releases the lock and splits a round in two. */
  function Program(parts: seq<Part>): seq<Op> {
    if parts == [] then [] else PartTrace(parts[0]) + Program(parts[1..])
  }

  // ----- The locking discipline -----

  /** Only locks above everything held are acquired, only held ones are released, and
      nothing is held at the end. */
  predicate Ordered(held: set<Lock>, rest: seq<Op>)
    decreases |rest|
  {
    if rest == [] then held == {}
    else
      match rest[0]
      case Acquire(l) => (forall h :: h in held ==> Rank(h) < Rank(l)) && Ordered(held + {l}, rest[1..])
      case Release(l) => l in held && Ordered(held - {l}, rest[1..])
  }

  lemma AcquireOrdered(held: set<Lock>, l: Lock, rest: seq<Op>)
    requires forall h :: h in held ==> Rank(h) < Rank(l)
    requires Ordered(held + {l}, rest)
    ensures Ordered(held, [Acquire(l)] + rest)
  {
    assert ([Acquire(l)] + rest)[1..] == rest;
  }

  lemma ReleaseOrdered(held: set<Lock>, l: Lock, rest: seq<Op>)
    requires l !in held && Ordered(held, rest)
    ensures Ordered(held + {l}, [Release(l)] + rest)
  {
    assert ([Release(l)] + rest)[1..] == rest;
    assert held + {l} - {l} == held;
  }

  lemma LoadOrdered(held: set<Lock>, l: Lock, rest: seq<Op>)
    requires forall h :: h in held ==> Rank(h) < Rank(l)
    requires Ordered(held, rest)
    ensures Ordered(held, [Acquire(l)] + ([Release(l)] + rest))
  {
    ReleaseOrdered(held, l, rest);
    AcquireOrdered(held, l, [Release(l)] + rest);
  }

  lemma {:induction false} LoadsOrdered(held: set<Lock>, l: Lock, n: nat, rest: seq<Op>)
    requires forall h :: h in held ==> Rank(h) < Rank(l)
    requires Ordered(held, rest)
    ensures Ordered(held, Loads(l, n) + rest)
  {
    if n == 0 {
      assert Loads(l, n) + rest == rest;
    } else {
      LoadsOrdered(held, l, n - 1, rest);
      LoadOrdered(held, l, Loads(l, n - 1) + rest);
      assert Loads(l, n) + rest == [Acquire(l)] + ([Release(l)] + (Loads(l, n - 1) + rest));
    }
  }

  lemma ControllerOrdered(held: set<Lock>, loads: nat, rest: seq<Op>)
    requires held <= {ServiceLock} && Ordered(held, rest)
    ensures Ordered(held, Trace(Controller(loads)) + rest)
  {
    var l, tail := ControllerLock, [Release(ControllerLock)] + rest;
    ReleaseOrdered(held, l, rest);
    LoadsOrdered(held + {l}, ControllerLoaderLock, loads, tail);
    AcquireOrdered(held, l, Loads(ControllerLoaderLock, loads) + tail);
    assert Trace(Controller(loads)) + rest == [Acquire(l)] + (Loads(ControllerLoaderLock, loads) + tail);
  }

  lemma TraceOrdered(held: set<Lock>, c: Call, rest: seq<Op>)
    requires held <= {ServiceLock} && Ordered(held, rest)
    ensures Ordered(held, Trace(c) + rest)
  {
    match c
    case Controller(loads) => ControllerOrdered(held, loads, rest);
    case ControllerInit => LoadsOrdered(held, ControllerLoaderLock, 1, rest);
    case Checker(loads) => LoadsOrdered(held, CheckerLoaderLock, loads, rest);
    case Callback => LoadsOrdered(held, CallbackLock, 1, rest);
  }

  lemma {:induction false} TracesOrdered(held: set<Lock>, calls: seq<Call>, rest: seq<Op>)
    requires held <= {ServiceLock} && Ordered(held, rest)
    ensures Ordered(held, Traces(calls) + rest)
  {
    if calls == [] {
      assert Traces(calls) + rest == rest;
    } else {
      TracesOrdered(held, calls[1..], rest);
      TraceOrdered(held, calls[0], Traces(calls[1..]) + rest);
      assert Traces(calls) + rest == Trace(calls[0]) + (Traces(calls[1..]) + rest);
    }
  }

  lemma SectionOrdered(calls: seq<Call>, rest: seq<Op>)
    requires Ordered({}, rest)
    ensures Ordered({}, PartTrace(Section(calls)) + rest)
  {
    var l, tail := ServiceLock, [Release(ServiceLock)] + rest;
    ReleaseOrdered({}, l, rest);
    TracesOrdered({} + {l}, calls, tail);
    AcquireOrdered({}, l, Traces(calls) + tail);
    assert PartTrace(Section(calls)) + rest == [Acquire(l)] + (Traces(calls) + tail);
  }

  lemma PartOrdered(p: Part, rest: seq<Op>)
    requires Ordered({}, rest)
    ensures Ordered({}, PartTrace(p) + rest)
  {
    match p
    case Unguarded(calls) => TracesOrdered({}, calls, rest);
    case Section(calls) => SectionOrdered(calls, rest);
  }

  /** Every program of the service follows the discipline. */
  lemma {:induction false} ProgramOrdered(parts: seq<Part>)
    ensures Ordered({}, Program(parts))
  {
    if parts != [] {
      ProgramOrdered(parts[1..]);
      PartOrdered(parts[0], Program(parts[1..]));
    }
  }

  // ----- Interleavings -----

  predicate Free(ts: seq<Thread>, l: Lock) {
    forall i :: 0 <= i < |ts| ==> l !in ts[i].held
  }

  predicate CanStep(ts: seq<Thread>, i: nat)
    requires i < |ts|
  {
    ts[i].rest != [] && (ts[i].rest[0].Acquire? ==> Free(ts, ts[i].rest[0].lock))
  }

  function Advance(t: Thread): Thread
    requires t.rest != []
  {
    match t.rest[0]
    case Acquire(l) => Thread(t.held + {l}, t.rest[1..])
    case Release(l) => Thread(t.held - {l}, t.rest[1..])
  }

  /** One scheduling choice; a thread that cannot step stays where it is. */
  function Step(ts: seq<Thread>, i: nat): (r: seq<Thread>)
    ensures |r| == |ts|
  {
    if i < |ts| && CanStep(ts, i) then ts[i := Advance(ts[i])] else ts
  }

  function Schedule(ts: seq<Thread>, choices: seq<nat>): (r: seq<Thread>)
    ensures |r| == |ts|
    decreases |choices|
  {
    if choices == [] then ts
    else Step(Schedule(ts, choices[..|choices| - 1]), choices[|choices| - 1])
  }

  ghost predicate Disciplined(ts: seq<Thread>) {
    && (forall i :: 0 <= i < |ts| ==> Ordered(ts[i].held, ts[i].rest))
    && (forall i, j :: 0 <= i < j < |ts| ==> ts[i].held !! ts[j].held)
  }

  lemma StepKeepsDiscipline(ts: seq<Thread>, i: nat)
    requires Disciplined(ts)
    ensures Disciplined(Step(ts, i))
  {}

  /** Any threads running any programs of the service. */
  ghost predicate Initial(ts: seq<Thread>) {
    forall i :: 0 <= i < |ts| ==> exists parts :: ts[i] == Thread({}, Program(parts))
  }

  lemma {:induction false} ScheduleKeepsDiscipline(ts: seq<Thread>, choices: seq<nat>)
    requires Initial(ts)
    ensures Disciplined(Schedule(ts, choices))
    decreases |choices|
  {
    if choices == [] {
      forall i | 0 <= i < |ts| ensures Ordered(ts[i].held, ts[i].rest) {
        var parts :| ts[i] == Thread({}, Program(parts));
        ProgramOrdered(parts);
      }
    } else {
      ScheduleKeepsDiscipline(ts, choices[..|choices| - 1]);
      StepKeepsDiscipline(Schedule(ts, choices[..|choices| - 1]), choices[|choices| - 1]);
    }
  }

  // ----- Theorems -----

  /** Thread i wants a lock that thread j holds. */
  predicate WaitsFor(ts: seq<Thread>, i: nat, j: nat) {
    && i < |ts| && j < |ts|
    && ts[i].rest != []
    && ts[i].rest[0].Acquire?
    && ts[i].rest[0].lock in ts[j].held
  }

  ghost predicate WaitPath(ts: seq<Thread>, path: seq<nat>) {
    forall k :: 0 <= k < |path| - 1 ==> WaitsFor(ts, path[k], path[k + 1])
  }

  /** The rank of the lock of a thread's next operation. */
  function Wanted(ts: seq<Thread>, i: nat): nat {
    if i < |ts| && ts[i].rest != [] then Rank(ts[i].rest[0].lock) else 0
  }

  /** Along a chain of waiting threads the wanted locks only rise. */
  lemma {:induction false} WantedRises(ts: seq<Thread>, path: seq<nat>)
    requires Disciplined(ts) && WaitPath(ts, path) && |path| >= 3
    ensures Wanted(ts, path[0]) < Wanted(ts, path[|path| - 2])
    decreases |path|
  {
    assert WaitsFor(ts, path[0], path[1]) && WaitsFor(ts, path[1], path[2]);
    assert WaitsFor(ts, path[|path| - 2], path[|path| - 1]);
    if |path| > 3 {
      WantedRises(ts, path[1..]);
    }
  }

  /** In every reachable state no thread waits for itself, directly or through others. */
  lemma NoWaitCycle(ts: seq<Thread>, choices: seq<nat>, path: seq<nat>)
    requires Initial(ts) && |path| >= 2 && WaitPath(Schedule(ts, choices), path)
    ensures path[0] != path[|path| - 1]
  {
    var now := Schedule(ts, choices);
    ScheduleKeepsDiscipline(ts, choices);
    assert WaitsFor(now, path[0], path[1]);
    assert WaitsFor(now, path[|path| - 2], path[|path| - 1]);
    if |path| > 2 {
      WantedRises(now, path);
    }
  }

  /** From an unfinished thread the chain of holders leads to one that can step. */
  lemma {:induction false} SomeoneAhead(ts: seq<Thread>, i: nat) returns (j: nat)
    requires Disciplined(ts) && i < |ts| && ts[i].rest != []
    ensures j < |ts| && CanStep(ts, j)
    decreases if ts[i].rest[0].Acquire? then 5 - Wanted(ts, i) else 0
  {
    if CanStep(ts, i) {
      return i;
    }
    var h :| 0 <= h < |ts| && ts[i].rest[0].lock in ts[h].held;
    assert ts[h].rest != [];
    j := SomeoneAhead(ts, h);
  }

  /** In every reachable state in which some thread is not finished, some thread can step. */
  lemma NoDeadlock(ts: seq<Thread>, choices: seq<nat>, i: nat)
    requires Initial(ts) && i < |ts| && Schedule(ts, choices)[i].rest != []
    ensures exists j: nat :: j < |ts| && CanStep(Schedule(ts, choices), j)
  {
    ScheduleKeepsDiscipline(ts, choices);
    var j := SomeoneAhead(Schedule(ts, choices), i);
  }
}
