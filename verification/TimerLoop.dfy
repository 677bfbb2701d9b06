/**
  The timer thread on one monotone clock, together with all other critical sections.

  A loop round is: read the clock and compute a timeout (under the lock), enter the wait
  (which releases the lock), wake up by deadline, notification or spuriously, and check.
  Other critical sections run whenever the loop does not hold the lock.
*/
module TimerLoop {
  import opened Types
  import opened Environment
  import opened ProcessControl
  import opened Callbacks
  import opened Session
  import opened SessionInvariant
  import opened Kiosk
  import Outcomes

  /** Where the loop thread is. since: the clock read by the last check; read: the clock the
      timeout was computed from; notified: the first notification since start. */
  datatype Pc =
    | AtTop(since: nat)
    | Armed(since: nat, read: nat, timeout: nat)
    | Waiting(since: nat, read: nat, start: nat, deadline: nat, notified: Option<nat>)
    | Exited

  /** began: when the running session started; checked: whether it was checked at or
      after its endpoint; busy: the last counted request or moment of a live session. */
  datatype Timed = Timed(s: State, now: nat, pc: Pc, began: nat, checked: bool, busy: nat)

  datatype Action =
    | Tick(delay: nat)
    | Serve(event: Event, spent: nat)
    | Compute
    | Wait
    | Check(closing: Closing, spent: nat)

  // ----- One action -----

  /** The section calls RemarkSaIdleLockedUnsafe. */
  predicate Counts(e: Event) {
    match e
    case Begin(q, d, cleanup, a) => BeginGate(q) == ApiOk
    case End(token, uid, gate, c) => EndGate(token, gate) == ApiOk
    case Query(gate) => GateCode(gate) == ApiOk
    case _ => false
  }

  predicate ReadsClock(e: Event, now: nat) {
    (e.Begin? || e.Confirmation?) ==> e.confirm.clock == now
  }

  predicate Enabled(t: Timed, a: Action) {
    match a
    case Tick(delay) => true
    case Serve(e, spent) => !t.pc.Armed? && !e.LoopCheck? && ReadsClock(e, t.now)
    case Compute => t.pc.AtTop?
    case Wait => t.pc.Armed?
    case Check(c, spent) => t.pc.Waiting?
  }

  function Notified(pc: Pc, now: nat): Pc {
    if pc.Waiting? && pc.notified.None? then pc.(notified := Some(now)) else pc
  }

  function Busy(s: State, s': State, counted: bool, now: nat, busy: nat): nat {
    if counted || s.session.status != Idle || s'.session.status != Idle then now else busy
  }

  /** After a section of another thread that led to session state s', from the moment it
      reads the clock: it notifies the loop only at its end, so the loop's delay counts
      from the reading. */
  function After(t: Timed, s': State, notifies: bool, counted: bool, spent: nat): Timed {
    Timed(s', t.now + spent,
          if notifies then Notified(t.pc, t.now) else t.pc,
          if s'.session.active && !t.s.session.active then t.now else t.began,
          t.checked && t.s.session.active && s'.session.active,
          Busy(t.s, s', counted, t.now + spent, t.busy))
  }

  function Served(t: Timed, e: Event, spent: nat): Timed {
    After(t, Next(t.s, e), Notifies(t.s, e), Counts(e), spent)
  }

  /** The check as an event of the session: the credited time is capped by the timeout. */
  function CheckEvent(t: Timed, c: Closing, spent: nat): Event
    requires t.pc.Waiting?
  {
    LoopCheck(t.now, Max(0, Min(t.now + spent - t.pc.start, t.pc.deadline - t.pc.start)), c)
  }

  function Checked(t: Timed, c: Closing, spent: nat): Timed
    requires t.pc.Waiting?
  {
    var s' := Next(t.s, CheckEvent(t, c, spent));
    Timed(s', t.now + spent, AtTop(t.now), t.began,
          s'.session.active && (t.checked || t.now >= t.s.session.endpoint),
          Busy(t.s, s', false, t.now + spent, t.busy))
  }

  function Act(t: Timed, a: Action): Timed
    requires Enabled(t, a)
  {
    match a
    case Tick(delay) =>
      t.(now := t.now + delay, busy := Busy(t.s, t.s, false, t.now + delay, t.busy))
    case Serve(e, spent) => Served(t, e, spent)
    case Compute =>
      t.(pc := if t.s.running then Armed(t.pc.since, t.now, NextTimeout(t.s, t.now)) else Exited)
    case Wait =>
      t.(pc := Waiting(t.pc.since, t.pc.read, t.now, t.now + t.pc.timeout, None))
    case Check(c, spent) => Checked(t, c, spent)
  }

  // ----- Timing assumptions -----

  /** When a waiting loop is due to wake: when its wait is over, or when a section that
      notifies it has read the clock. */
  function Due(pc: Pc): nat
    requires pc.Waiting?
  {
    if pc.notified.Some? && pc.notified.value < pc.deadline then pc.notified.value else pc.deadline
  }

  /** At most D from one check to the next wait; at most L from being due to wake to
      running the check, including the rest of the notifying section and the lock. */
  predicate Timely(t: Timed, D: nat, L: nat) {
    match t.pc
    case AtTop(since) => t.now <= since + D
    case Armed(since, read, timeout) => t.now <= since + D
    case Waiting(since, read, start, deadline, notified) => t.now <= Due(t.pc) + L
    case Exited => true
  }

  // ----- Invariant -----

  ghost predicate Clocks(t: Timed, D: nat) {
    match t.pc
    case AtTop(since) => since <= t.now
    case Armed(since, read, timeout) =>
      since <= read <= t.now && timeout == NextTimeout(t.s, read) && t.s.running
    case Waiting(since, read, start, deadline, notified) =>
      && since <= read <= start <= t.now
      && start <= deadline <= start + TIME_SLICE
      && start <= since + D
      && (notified.Some? ==> notified.value <= t.now)
      && t.s.running
    case Exited => !t.s.running
  }

  /** If the loop waits, a session is active and no notification is pending, then the wait
      ends at most at the endpoint, up to the time between reading the clock and waiting. */
  ghost predicate NoLostWakeup(t: Timed) {
    t.pc.Waiting? && t.s.session.active && t.pc.notified.None? ==>
      t.pc.deadline <= Max(t.s.session.endpoint, t.pc.read) + (t.pc.start - t.pc.read)
  }

  /** Until a session was checked at or after its endpoint, the loop is not past it. */
  ghost predicate OnTime(t: Timed) {
    t.s.session.active && !t.checked ==>
      match t.pc
      case AtTop(since) => since < t.s.session.endpoint
      case Armed(since, read, timeout) => since < t.s.session.endpoint
      case Waiting(since, read, start, deadline, notified) =>
        if notified.Some? then notified.value < t.s.session.endpoint else since < t.s.session.endpoint
      case Exited => true
  }

  /** No idle time after this moment has been credited yet. */
  function Mark(t: Timed): nat {
    if t.pc.Waiting? then t.pc.start else t.now
  }

  ghost predicate IdleCredit(t: Timed) {
    && t.busy <= t.now
    && t.s.idle <= SA_IDLE_MAX + TIME_SLICE
    && (t.s.session.status != Idle ==> t.busy == t.now)
    && (t.s.idle > 0 ==> t.busy <= Mark(t) && t.s.idle <= TIME_SLICE + (Mark(t) - t.busy))
  }

  ghost predicate TimedInv(t: Timed, D: nat) {
    && Inv(t.s)
    && Clocks(t, D)
    && NoLostWakeup(t)
    && OnTime(t)
    && IdleCredit(t)
    && (t.s.session.active ==> t.s.session.endpoint == t.began + t.s.session.duration && t.began <= t.now)
  }

  // ----- What the loop needs to know about the other sections -----

  lemma ConfirmOpens(s: State, a: ConfirmAnswers)
    requires ConfirmBegin(s, a).session.active && !s.session.active
    ensures ConfirmBegin(s, a).session.endpoint == a.clock + ConfirmBegin(s, a).session.duration
  {}

  /** A session becomes active only in a section that notifies, with an endpoint strictly
      after the clock. */
  lemma ActivationNotifies(s: State, e: Event)
    requires Inv(s) && !s.session.active && Next(s, e).session.active
    ensures Notifies(s, e) && (e.Begin? || e.Confirmation?)
    ensures Next(s, e).session.endpoint == e.confirm.clock + Next(s, e).session.duration
  {
    match e
    case Begin(q, d, cleanup, a) =>
      var s1 := Admit(s.(idle := 0), q, cleanup);
      ConfirmOpens(s1, a);
    case Confirmation(ticket, operation, a, c) => ConfirmOpens(s, a);
    case _ =>
  }

  /** Outside the loop nothing makes the service unload, and a counted request, and only
      that, resets the idle counter. */
  predicate IdleKept(s: State, s': State, counted: bool) {
    s'.running == s.running && s'.idle == if counted then 0 else s.idle
  }

  lemma ConcludeKeepsIdle(s: State, m: Option<Message>, r: Restore, a: ParamAnswers)
    ensures IdleKept(s, Conclude(s, m, r, a), false)
  {}

  lemma InterruptKeepsIdle(s: State, m: Message, c: Closing)
    ensures IdleKept(s, Interrupt(s, m, c), false)
  {
    ExitKeepsSession(s, c.exit);
    ConcludeKeepsIdle(ExitKiosk(s, c.exit).0, Some(m), c.cleanup, c.params);
  }

  lemma AppDieKeepsIdle(s: State, c: Closing)
    ensures IdleKept(s, AppDie(s, c), false)
  {
    ExitKeepsSession(s, c.exit);
    ConcludeKeepsIdle(ExitKiosk(s, c.exit).0, None, c.cleanup, c.params);
  }

  lemma ConfirmKeepsIdle(s: State, a: ConfirmAnswers)
    ensures IdleKept(s, ConfirmBegin(s, a), false)
  {
    RestrictKeepsSession(s.(session := s.session.(envOk := EnvSafe(s.env, a.sample))), a);
  }

  lemma BeginKeepsIdle(s: State, q: Request, d: Dialog, cleanup: Restore, a: ConfirmAnswers)
    ensures IdleKept(s, BeginStep(s, q, d, cleanup, a), BeginGate(q) == ApiOk)
  {
    if BeginCode(s, q) == ApiOk {
      ConfirmKeepsIdle(Admit(s.(idle := 0), q, cleanup), a);
    }
  }

  lemma EndKeepsIdle(s: State, token: Option<Remote>, uid: int, gate: Gate, c: Closing)
    ensures IdleKept(s, EndStep(s, token, uid, gate, c), EndGate(token, gate) == ApiOk)
  {
    InterruptKeepsIdle(s.(idle := 0), OnEnd, c);
  }

  lemma ConfirmationKeepsIdle(s: State, ticket: string, operation: Operation, a: ConfirmAnswers, c: Closing)
    ensures IdleKept(s, ConfirmationStep(s, ticket, operation, a, c), false)
  {
    ConfirmKeepsIdle(s, a);
    ConcludeKeepsIdle(s, Some(OnBegin(UserCancel)), c.cleanup, c.params);
  }

  lemma NoUnloadElsewhere(s: State, e: Event)
    requires !e.LoopCheck?
    ensures IdleKept(s, Next(s, e), Counts(e))
  {
    match e
    case Begin(q, d, cleanup, a) => BeginKeepsIdle(s, q, d, cleanup, a);
    case End(token, uid, gate, c) => EndKeepsIdle(s, token, uid, gate, c);
    case Query(gate) =>
    case Confirmation(ticket, operation, a, c) => ConfirmationKeepsIdle(s, ticket, operation, a, c);
    case DialogError(ticket, c) => ConcludeKeepsIdle(s, Some(OnBegin(SystemError)), c.cleanup, c.params);
    case AppDied(bundle, c) => AppDieKeepsIdle(s, c);
    case RemoteDied(remote, c) => AppDieKeepsIdle(s, c);
    case Anomaly(c) => InterruptKeepsIdle(s, OnInterrupted(EnvAnomaly), c);
    case ScreenConnected(screens, c) => InterruptKeepsIdle(s, OnInterrupted(EnvAnomaly), c);
    case AncoChanged(isAncoKey, value, persist) => AncoChangesParams(s, e);
  }

  /** A running session is not announced to the loop again. */
  lemma ActiveIsNotNotified(s: State, e: Event)
    requires Inv(s) && s.session.active
    ensures !Notifies(s, e)
  {}

  // ----- Preservation -----

  lemma AfterKeepsIdleCredit(t: Timed, s': State, notifies: bool, counted: bool, spent: nat, D: nat)
    requires TimedInv(t, D) && Inv(s') && IdleKept(t.s, s', counted)
    ensures IdleCredit(After(t, s', notifies, counted, spent))
  {}

  lemma ActiveKeeps(t: Timed, s': State, counted: bool, spent: nat, D: nat)
    requires TimedInv(t, D) && !t.pc.Armed? && Inv(s') && IdleKept(t.s, s', counted)
    requires t.s.session.active && FrozenOrClosed(t.s, s')
    ensures TimedInv(After(t, s', false, counted, spent), D)
  {
    AfterKeepsIdleCredit(t, s', false, counted, spent, D);
  }

  lemma ActivatedKeeps(t: Timed, s': State, counted: bool, spent: nat, D: nat)
    requires TimedInv(t, D) && !t.pc.Armed? && Inv(s') && IdleKept(t.s, s', counted)
    requires !t.s.session.active && s'.session.active && s'.session.endpoint == t.now + s'.session.duration
    ensures TimedInv(After(t, s', true, counted, spent), D)
  {
    AfterKeepsIdleCredit(t, s', true, counted, spent, D);
  }

  lemma InactiveKeeps(t: Timed, s': State, notifies: bool, counted: bool, spent: nat, D: nat)
    requires TimedInv(t, D) && !t.pc.Armed? && Inv(s') && IdleKept(t.s, s', counted)
    requires !t.s.session.active && !s'.session.active
    ensures TimedInv(After(t, s', notifies, counted, spent), D)
  {
    AfterKeepsIdleCredit(t, s', notifies, counted, spent, D);
  }

  lemma ServeKeeps(t: Timed, e: Event, spent: nat, D: nat)
    requires TimedInv(t, D) && Enabled(t, Serve(e, spent))
    ensures TimedInv(Served(t, e, spent), D)
  {
    var s' := Next(t.s, e);
    NextKeepsInv(t.s, e);
    NoUnloadElsewhere(t.s, e);
    if t.s.session.active {
      ActiveStep(t.s, e);
      ActiveIsNotNotified(t.s, e);
      ActiveKeeps(t, s', Counts(e), spent, D);
    } else if s'.session.active {
      ActivationNotifies(t.s, e);
      ActivatedKeeps(t, s', Counts(e), spent, D);
    } else {
      InactiveKeeps(t, s', Notifies(t.s, e), Counts(e), spent, D);
    }
  }

  lemma ComputeKeeps(t: Timed, D: nat)
    requires TimedInv(t, D) && Enabled(t, Compute)
    ensures TimedInv(Act(t, Compute), D)
  {}

  lemma WaitKeeps(t: Timed, D: nat, L: nat)
    requires TimedInv(t, D) && Enabled(t, Wait) && Timely(t, D, L)
    ensures TimedInv(Act(t, Wait), D)
  {}

  lemma CheckKeepsIdleCredit(t: Timed, c: Closing, spent: nat, D: nat)
    requires TimedInv(t, D) && Enabled(t, Check(c, spent))
    ensures IdleCredit(Checked(t, c, spent))
  {}

  lemma CheckKeeps(t: Timed, c: Closing, spent: nat, D: nat)
    requires TimedInv(t, D) && Enabled(t, Check(c, spent))
    ensures TimedInv(Checked(t, c, spent), D)
  {
    CheckKeepsIdleCredit(t, c, spent, D);
    var e := CheckEvent(t, c, spent);
    NextKeepsInv(t.s, e);
    if t.s.session.active {
      ActiveStep(t.s, e);
    }
  }

  lemma ActKeeps(t: Timed, a: Action, D: nat, L: nat)
    requires TimedInv(t, D) && Enabled(t, a) && Timely(t, D, L)
    ensures TimedInv(Act(t, a), D)
  {
    match a
    case Tick(delay) =>
    case Serve(e, spent) => ServeKeeps(t, e, spent, D);
    case Compute => ComputeKeeps(t, D);
    case Wait => WaitKeeps(t, D, L);
    case Check(c, spent) => CheckKeeps(t, c, spent, D);
  }

  // ----- Runs -----

  ghost predicate TimedStart(t: Timed) {
    Starting(t.s) && t.pc == AtTop(t.now) && !t.checked && t.busy == t.now
  }

  /** Action i was possible and led from state i to the next one. */
  ghost predicate StepAt(ts: seq<Timed>, actions: seq<Action>, i: nat)
    requires i < |actions| < |ts|
  {
    Enabled(ts[i], actions[i]) && ts[i + 1] == Act(ts[i], actions[i])
  }

  ghost predicate Chain(ts: seq<Timed>, actions: seq<Action>) {
    |ts| == |actions| + 1 && forall i :: 0 <= i < |actions| ==> StepAt(ts, actions, i)
  }

  /** A run of actions in which every state meets the timing assumptions. */
  ghost predicate TimedRun(ts: seq<Timed>, actions: seq<Action>, D: nat, L: nat) {
    && Chain(ts, actions)
    && TimedStart(ts[0])
    && forall i :: 0 <= i < |ts| ==> Timely(ts[i], D, L)
  }

  lemma {:induction false} TimedInvOnRuns(ts: seq<Timed>, actions: seq<Action>, D: nat, L: nat, n: nat)
    requires TimedRun(ts, actions, D, L) && n < |ts|
    ensures TimedInv(ts[n], D)
  {
    if n == 0 {
      InvOnRuns(ts[0].s, []);
    } else {
      TimedInvOnRuns(ts, actions, D, L, n - 1);
      assert StepAt(ts, actions, n - 1);
      ActKeeps(ts[n - 1], actions[n - 1], D, L);
    }
  }

  /** The session events among the first n actions of a run. */
  ghost function EventsOf(ts: seq<Timed>, actions: seq<Action>, n: nat): seq<Event>
    requires n <= |actions| && Chain(ts, actions)
  {
    if n == 0 then []
    else
      assert StepAt(ts, actions, n - 1);
      var before := EventsOf(ts, actions, n - 1);
      match actions[n - 1]
      case Serve(e, spent) => before + [e]
      case Check(c, spent) => before + [CheckEvent(ts[n - 1], c, spent)]
      case _ => before
  }

  /** A timed run is a run of critical sections, so what holds of every such run (the
      invariant, the callback protocol, tickets, persistence) holds of it. */
  lemma {:induction false} TimedRunIsRun(ts: seq<Timed>, actions: seq<Action>, D: nat, L: nat, n: nat)
    requires TimedRun(ts, actions, D, L) && n < |ts|
    ensures ts[n].s == Run(ts[0].s, EventsOf(ts, actions, n))
  {
    if n > 0 {
      TimedRunIsRun(ts, actions, D, L, n - 1);
      assert StepAt(ts, actions, n - 1);
      var before, events := EventsOf(ts, actions, n - 1), EventsOf(ts, actions, n);
      if events != before {
        assert events[..|events| - 1] == before;
      }
    }
  }

  // ----- Theorems -----

  /** Expiry is never late by more than D + L, however many slices, spurious wake-ups and
      other sections there were: until the first check at or after the endpoint, the clock
      has not passed began + duration + D + L. */
  lemma LatenessIsBounded(ts: seq<Timed>, actions: seq<Action>, D: nat, L: nat, n: nat)
    requires TimedRun(ts, actions, D, L) && n < |ts|
    requires ts[n].s.session.active && !ts[n].checked
    ensures ts[n].now <= ts[n].began + ts[n].s.session.duration + D + L
  {
    TimedInvOnRuns(ts, actions, D, L, n);
  }

  /** A check closes a session exactly when it is expired and the exit calls succeed. */
  lemma CheckCloses(s: State, e: Event)
    requires Inv(s) && s.session.active && e.LoopCheck?
    ensures !Next(s, e).session.active
       <==> e.now >= s.session.endpoint && AllPower(e.closing.exit.power) && Exits(e.closing.exit)
  {
    InterruptFreezesOrCloses(s, OnInterrupted(Timeout), e.closing);
  }

  /** The loop closes a session only at or after its endpoint; the check that first
      finds it expired comes at most D + L after it; and if its calls succeed, the session
      is closed by that check. */
  lemma ExpiryWindow(ts: seq<Timed>, actions: seq<Action>, D: nat, L: nat, n: nat)
    requires TimedRun(ts, actions, D, L) && n < |actions| && actions[n].Check?
    requires ts[n].s.session.active
    ensures
      var endpoint := ts[n].began + ts[n].s.session.duration;
      && (!ts[n + 1].s.session.active ==> endpoint <= ts[n].now)
      && (!ts[n].checked ==> ts[n].now <= endpoint + D + L)
      && (endpoint <= ts[n].now ==>
            var exit := actions[n].closing.exit;
            if AllPower(exit.power) && Exits(exit) then !ts[n + 1].s.session.active
            else ts[n + 1].s.session.active && ts[n + 1].checked)
  {
    TimedInvOnRuns(ts, actions, D, L, n);
    assert StepAt(ts, actions, n);
    if !ts[n].checked {
      LatenessIsBounded(ts, actions, D, L, n);
    }
    CheckCloses(ts[n].s, CheckEvent(ts[n], actions[n].closing, actions[n].spent));
  }

  function LastSent(log: seq<Delivery>): Option<Message> {
    if log == [] then None else Some(log[|log| - 1].message)
  }

  /** Nothing was sent, or the last message is no TIMEOUT. */
  predicate NoTimeoutSent(r: Registry, r': Registry) {
    r'.log == r.log || LastSent(r'.log) != Some(OnInterrupted(Timeout))
  }

  lemma ConcludeSendsNoTimeout(s: State, m: Option<Message>, r: Restore, a: ParamAnswers)
    requires m != Some(OnInterrupted(Timeout))
    ensures NoTimeoutSent(s.registry, Conclude(s, m, r, a).registry)
  {}

  lemma InterruptSendsNoTimeout(s: State, m: Message, c: Closing)
    requires m != OnInterrupted(Timeout)
    ensures NoTimeoutSent(s.registry, Interrupt(s, m, c).registry)
  {
    InterruptAppends(s, m, c);
  }

  lemma ConfirmSendsNoTimeout(s: State, a: ConfirmAnswers)
    ensures NoTimeoutSent(s.registry, ConfirmBegin(s, a).registry)
  {
    RestrictKeepsSession(s.(session := s.session.(envOk := EnvSafe(s.env, a.sample))), a);
  }

  lemma BeginSendsNoTimeout(s: State, q: Request, d: Dialog, cleanup: Restore, a: ConfirmAnswers)
    ensures NoTimeoutSent(s.registry, BeginStep(s, q, d, cleanup, a).registry)
  {
    if BeginCode(s, q) == ApiOk {
      ConfirmSendsNoTimeout(Admit(s.(idle := 0), q, cleanup), a);
    }
  }

  lemma EndSendsNoTimeout(s: State, token: Option<Remote>, uid: int, gate: Gate, c: Closing)
    ensures NoTimeoutSent(s.registry, EndStep(s, token, uid, gate, c).registry)
  {
    InterruptSendsNoTimeout(s.(idle := 0), OnEnd, c);
  }

  lemma AppDieSendsNothing(s: State, c: Closing)
    ensures NoTimeoutSent(s.registry, AppDie(s, c).registry)
  {
    ExitKeepsSession(s, c.exit);
  }

  lemma OthersSendNoTimeout(s: State, e: Event)
    requires !e.LoopCheck?
    ensures NoTimeoutSent(s.registry, Next(s, e).registry)
  {
    match e
    case Begin(q, d, cleanup, a) => BeginSendsNoTimeout(s, q, d, cleanup, a);
    case End(token, uid, gate, c) => EndSendsNoTimeout(s, token, uid, gate, c);
    case Query(gate) =>
    case Confirmation(ticket, operation, a, c) =>
      ConfirmSendsNoTimeout(s, a);
      ConcludeSendsNoTimeout(s, Some(OnBegin(UserCancel)), c.cleanup, c.params);
    case DialogError(ticket, c) => ConcludeSendsNoTimeout(s, Some(OnBegin(SystemError)), c.cleanup, c.params);
    case AppDied(bundle, c) => AppDieSendsNothing(s, c);
    case RemoteDied(remote, c) => AppDieSendsNothing(s, c);
    case Anomaly(c) => InterruptSendsNoTimeout(s, OnInterrupted(EnvAnomaly), c);
    case ScreenConnected(screens, c) => InterruptSendsNoTimeout(s, OnInterrupted(EnvAnomaly), c);
    case AncoChanged(isAncoKey, value, persist) => AncoChangesParams(s, e);
  }

  /** A TIMEOUT is sent only by a check of the loop that finds the session expired. */
  lemma TimeoutIsNeverEarly(s: State, e: Event)
    requires Next(s, e).registry.log != s.registry.log
    requires LastSent(Next(s, e).registry.log) == Some(OnInterrupted(Timeout))
    ensures e.LoopCheck? && s.session.active && s.session.endpoint <= e.now
  {
    if !e.LoopCheck? {
      OthersSendNoTimeout(s, e);
    }
  }

  /** No lost wakeup: although the loop may have gone to sleep for a whole slice before the
      session existed, a wait without a pending notification ends by the endpoint, or at
      once if the clock was already past it, up to the time between reading the clock and
      waiting. Every finite run is timely for some D and L, so this bounds nothing out. */
  lemma NoWakeupIsLost(ts: seq<Timed>, actions: seq<Action>, D: nat, L: nat, n: nat)
    requires TimedRun(ts, actions, D, L) && n < |ts|
    requires ts[n].pc.Waiting? && ts[n].s.session.active && ts[n].pc.notified.None?
    ensures ts[n].pc.deadline <= Max(ts[n].s.session.endpoint, ts[n].pc.read) + (ts[n].pc.start - ts[n].pc.read)
    ensures ts[n].pc.read == ts[n].pc.start ==>
              ts[n].pc.deadline <= Max(ts[n].s.session.endpoint, ts[n].pc.start)
  {
    TimedInvOnRuns(ts, actions, D, L, n);
  }

  /** The idle counter never exceeds 30 s, and never runs ahead of the time since the last
      counted request or live session by more than the slice that may predate it. */
  lemma IdleCounterIsBounded(ts: seq<Timed>, actions: seq<Action>, D: nat, L: nat, n: nat)
    requires TimedRun(ts, actions, D, L) && n < |ts|
    ensures ts[n].s.idle <= 30000
    ensures ts[n].s.idle > 0 ==> ts[n].s.idle <= 5000 + (ts[n].now - ts[n].busy)
  {
    TimedInvOnRuns(ts, actions, D, L, n);
  }

  lemma UnloadAt(t: Timed, a: Action, D: nat, L: nat)
    requires TimedInv(t, D) && Enabled(t, a) && Timely(t, D, L)
    requires t.s.running && !Act(t, a).s.running
    ensures
      var t' := Act(t, a);
      && t'.s.session == NO_SESSION
      && t'.now - t'.busy > SA_IDLE_MAX - TIME_SLICE == 20000
      && SA_IDLE_MAX < t'.s.idle <= 30000
  {
    ActKeeps(t, a, D, L);
    if a.Serve? {
      NoUnloadElsewhere(t.s, a.event);
    }
  }

  /** The service decides to unload only without a session and only when more than 20 s
      have passed since the last counted request or live session. */
  lemma UnloadIsSafe(ts: seq<Timed>, actions: seq<Action>, D: nat, L: nat, n: nat)
    requires TimedRun(ts, actions, D, L) && n < |actions|
    requires ts[n].s.running && !ts[n + 1].s.running
    ensures ts[n + 1].s.session == NO_SESSION
    ensures ts[n + 1].now - ts[n + 1].busy > SA_IDLE_MAX - TIME_SLICE == 20000
    ensures SA_IDLE_MAX < ts[n + 1].s.idle <= 30000
  {
    var t, a := ts[n], actions[n];
    assert StepAt(ts, actions, n) && Timely(t, D, L);
    TimedInvOnRuns(ts, actions, D, L, n);
    UnloadAt(t, a, D, L);
  }

  // ----- Whole slices -----

  /** No spurious wakeup while a session runs: a check that no notification asked for
      comes only when its wait is over. */
  predicate WaitsOut(t: Timed, a: Action) {
    a.Check? && t.s.session.active && t.pc.Waiting? && t.pc.notified.None? ==> t.pc.deadline <= t.now
  }

  /** The waits entered since the last activation, after one more action. */
  function CountWaits(t: Timed, a: Action, waits: nat): nat
    requires Enabled(t, a)
  {
    if !t.s.session.active then 0 else if a.Wait? then waits + 1 else waits
  }

  /** The waits entered since the last activation, before action n. */
  ghost function WaitsSince(ts: seq<Timed>, actions: seq<Action>, n: nat): nat
    requires n <= |actions| && Chain(ts, actions)
  {
    if n == 0 then 0
    else
      assert StepAt(ts, actions, n - 1);
      CountWaits(ts[n - 1], actions[n - 1], WaitsSince(ts, actions, n - 1))
  }

  /** Where a punctual loop is after so many waits for a session not yet found expired. */
  ghost predicate Punctual(t: Timed, waits: nat) {
    t.s.session.active && !t.checked ==>
      match t.pc
      case AtTop(since) => t.now == t.began + TIME_SLICE * waits
      case Armed(since, read, timeout) => t.now == read == t.began + TIME_SLICE * waits
      case Waiting(since, read, start, deadline, notified) =>
        if notified.Some? then waits == 0 && t.now == t.began
        else
          && waits > 0
          && start == t.began + TIME_SLICE * (waits - 1) < t.s.session.endpoint
          && deadline == start + NextTimeout(t.s, start)
      case Exited => false
  }

  lemma PunctualActivated(t: Timed, s': State, counted: bool, spent: nat)
    requires TimedInv(t, 0) && Timely(t, 0, 0) && !t.pc.Armed? && !t.pc.Exited?
    requires !t.s.session.active && s'.session.active
    requires Timely(After(t, s', true, counted, spent), 0, 0)
    ensures Punctual(After(t, s', true, counted, spent), 0)
  {}

  lemma PunctualActive(t: Timed, s': State, counted: bool, spent: nat, waits: nat)
    requires TimedInv(t, 0) && Timely(t, 0, 0) && Punctual(t, waits) && !t.pc.Armed?
    requires t.s.session.active && FrozenOrClosed(t.s, s')
    requires Timely(After(t, s', false, counted, spent), 0, 0)
    ensures Punctual(After(t, s', false, counted, spent), waits)
  {}

  lemma PunctualServe(t: Timed, e: Event, spent: nat, waits: nat)
    requires TimedInv(t, 0) && Timely(t, 0, 0) && Punctual(t, waits)
    requires Enabled(t, Serve(e, spent)) && Timely(Served(t, e, spent), 0, 0)
    ensures Punctual(Served(t, e, spent), CountWaits(t, Serve(e, spent), waits))
  {
    if t.s.session.active {
      ActiveStep(t.s, e);
      ActiveIsNotNotified(t.s, e);
      PunctualActive(t, Next(t.s, e), Counts(e), spent, waits);
    } else if Next(t.s, e).session.active {
      ActivationNotifies(t.s, e);
      NextKeepsInv(t.s, e);
      NoUnloadElsewhere(t.s, e);
      PunctualActivated(t, Next(t.s, e), Counts(e), spent);
    }
  }

  lemma PunctualCheck(t: Timed, c: Closing, spent: nat, waits: nat)
    requires TimedInv(t, 0) && Timely(t, 0, 0) && Punctual(t, waits)
    requires Enabled(t, Check(c, spent)) && WaitsOut(t, Check(c, spent)) && Timely(Checked(t, c, spent), 0, 0)
    ensures Punctual(Checked(t, c, spent), CountWaits(t, Check(c, spent), waits))
  {
    if t.s.session.active {
      ActiveStep(t.s, CheckEvent(t, c, spent));
    }
  }

  lemma PunctualStep(t: Timed, a: Action, waits: nat)
    requires TimedInv(t, 0) && Timely(t, 0, 0) && Punctual(t, waits)
    requires Enabled(t, a) && WaitsOut(t, a) && Timely(Act(t, a), 0, 0)
    ensures Punctual(Act(t, a), CountWaits(t, a, waits))
  {
    match a
    case Serve(e, spent) => PunctualServe(t, e, spent, waits);
    case Check(c, spent) => PunctualCheck(t, c, spent, waits);
    case _ =>
  }

  lemma {:induction false} PunctualOnRuns(ts: seq<Timed>, actions: seq<Action>, n: nat)
    requires TimedRun(ts, actions, 0, 0) && n < |ts|
    requires forall i :: 0 <= i < |actions| ==> WaitsOut(ts[i], actions[i])
    ensures Punctual(ts[n], WaitsSince(ts, actions, n))
  {
    if n > 0 {
      PunctualOnRuns(ts, actions, n - 1);
      TimedInvOnRuns(ts, actions, 0, 0, n - 1);
      assert StepAt(ts, actions, n - 1) && Timely(ts[n], 0, 0);
      PunctualStep(ts[n - 1], actions[n - 1], WaitsSince(ts, actions, n - 1));
    }
  }

  lemma SlicesOf(duration: nat, slices: nat)
    requires 0 < slices && TIME_SLICE * (slices - 1) < duration <= TIME_SLICE * slices
    ensures slices == (duration + TIME_SLICE - 1) / TIME_SLICE
  {}

  lemma PunctualExpiry(t: Timed, a: Action, waits: nat)
    requires TimedInv(t, 0) && Timely(t, 0, 0) && Punctual(t, waits)
    requires a.Check? && Enabled(t, a) && WaitsOut(t, a)
    requires t.s.session.active && !t.checked && t.s.session.endpoint <= t.now
    ensures t.now == t.began + t.s.session.duration == t.s.session.endpoint
    ensures waits == (t.s.session.duration + TIME_SLICE - 1) / TIME_SLICE
  {
    SlicesOf(t.s.session.duration, waits);
  }

  /** Nothing is lost to slicing: if nothing delays the loop and it sleeps its waits out,
      the first check that finds a session expired comes exactly at the endpoint, after
      exactly ceil(duration / 5 s) waits since its activation. */
  lemma PunctualWaits(ts: seq<Timed>, actions: seq<Action>, n: nat)
    requires TimedRun(ts, actions, 0, 0) && n < |actions| && actions[n].Check?
    requires forall i :: 0 <= i < |actions| ==> WaitsOut(ts[i], actions[i])
    requires ts[n].s.session.active && !ts[n].checked && ts[n].s.session.endpoint <= ts[n].now
    ensures ts[n].now == ts[n].began + ts[n].s.session.duration == ts[n].s.session.endpoint
    ensures WaitsSince(ts, actions, n) == (ts[n].s.session.duration + TIME_SLICE - 1) / TIME_SLICE
  {
    var t, a, waits := ts[n], actions[n], WaitsSince(ts, actions, n);
    assert Timely(t, 0, 0) && StepAt(ts, actions, n) && WaitsOut(t, a);
    assert TimedInv(t, 0) by {
      TimedInvOnRuns(ts, actions, 0, 0, n);
    }
    assert Punctual(t, waits) by {
      PunctualOnRuns(ts, actions, n);
    }
    PunctualExpiry(t, a, waits);
  }

  // ----- Unloading an idle service -----

  /** No request is counted, and no check comes before its wait is over. */
  predicate Undisturbed(t: Timed, a: Action) {
    && (a.Serve? ==> !Counts(a.event))
    && (a.Check? && t.pc.Waiting? ==> t.pc.deadline <= t.now)
  }

  /** The checks among the actions from m to n. */
  function Checks(actions: seq<Action>, m: nat, n: nat): nat
    requires m <= n <= |actions|
    decreases n
  {
    if m == n then 0 else Checks(actions, m, n - 1) + (if actions[n - 1].Check? then 1 else 0)
  }

  /** Where an idle loop is after k full slices, when its last check was between two clocks:
      six slices stop the service. */
  ghost predicate IdleSince(t: Timed, k: nat, early: nat, late: nat) {
    && t.s.session == NO_SESSION
    && t.s.idle == 5000 * k
    && k <= 6
    && (t.s.running <==> k <= 5)
    && match t.pc
       case AtTop(since) => early <= since <= late
       case Armed(since, read, timeout) => early <= since <= late && timeout == TIME_SLICE && k <= 5
       case Waiting(since, read, start, deadline, notified) =>
         early <= since <= late && deadline == start + TIME_SLICE && notified.None? && k <= 5
       case Exited => k == 6
  }

  lemma UncountedIsQuiet(s: State, e: Event)
    requires Inv(s) && s.session.status == Idle && !e.LoopCheck? && !Counts(e)
    ensures !Notifies(s, e) && Next(s, e).session == NO_SESSION
    ensures IdleKept(s, Next(s, e), false)
  {
    NoUnloadElsewhere(s, e);
    Outcomes.IdleIgnores(s, e);
  }

  lemma IdleServe(t: Timed, e: Event, spent: nat, k: nat, early: nat, late: nat, D: nat)
    requires TimedInv(t, D) && IdleSince(t, k, early, late)
    requires Enabled(t, Serve(e, spent)) && Undisturbed(t, Serve(e, spent))
    ensures IdleSince(Served(t, e, spent), k, early, late)
  {
    UncountedIsQuiet(t.s, e);
  }

  lemma IdleCheck(t: Timed, c: Closing, spent: nat, k: nat, early: nat, late: nat, D: nat, L: nat)
    requires TimedInv(t, D) && Timely(t, D, L) && IdleSince(t, k, early, late)
    requires Enabled(t, Check(c, spent)) && Undisturbed(t, Check(c, spent))
    ensures IdleSince(Checked(t, c, spent), k + 1, early + TIME_SLICE, late + TIME_SLICE + D + L)
  {}

  lemma IdleAct(
      ts: seq<Timed>, actions: seq<Action>, D: nat, L: nat, i: nat, k: nat, early: nat, late: nat)
    requires TimedRun(ts, actions, D, L) && i < |actions|
    requires IdleSince(ts[i], k, early, late) && Undisturbed(ts[i], actions[i])
    ensures
      if actions[i].Check? then IdleSince(ts[i + 1], k + 1, early + TIME_SLICE, late + TIME_SLICE + D + L)
      else IdleSince(ts[i + 1], k, early, late)
  {
    var t, a := ts[i], actions[i];
    assert StepAt(ts, actions, i) && Timely(t, D, L);
    TimedInvOnRuns(ts, actions, D, L, i);
    match a
    case Serve(e, spent) => IdleServe(t, e, spent, k, early, late, D);
    case Check(c, spent) => IdleCheck(t, c, spent, k, early, late, D, L);
    case _ =>
  }

  /** k checks later, when each comes at most d after the one before. */
  function Later(base: nat, k: nat, d: nat): nat {
    if k == 0 then base else Later(base, k - 1, d) + d
  }

  lemma {:induction false} LaterIsProduct(base: nat, k: nat, d: nat)
    ensures Later(base, k, d) == base + k * d
  {
    if k > 0 {
      LaterIsProduct(base, k - 1, d);
    }
  }

  /** An idle service does stop: from the top of a round with an idle counter of 0, while no
      request is counted and the waits are slept out, the k-th check leaves the counter at
      5 s times k, five checks leave the service running and the sixth stops it; the k-th
      check comes between 5 s and 5 s + D + L times k later. */
  lemma {:induction false} IdleServiceUnloads(
      ts: seq<Timed>, actions: seq<Action>, D: nat, L: nat, m: nat, n: nat)
    requires TimedRun(ts, actions, D, L) && m <= n < |ts|
    requires ts[m].pc.AtTop? && ts[m].s.session == NO_SESSION && ts[m].s.running && ts[m].s.idle == 0
    requires forall i :: m <= i < n ==> Undisturbed(ts[i], actions[i])
    ensures
      var base, k := ts[m].pc.since, Checks(actions, m, n);
      IdleSince(ts[n], k, Later(base, k, TIME_SLICE), Later(base, k, TIME_SLICE + D + L))
    decreases n
  {
    if m < n {
      IdleServiceUnloads(ts, actions, D, L, m, n - 1);
      var base, k := ts[m].pc.since, Checks(actions, m, n - 1);
      IdleAct(ts, actions, D, L, n - 1, k, Later(base, k, TIME_SLICE), Later(base, k, TIME_SLICE + D + L));
    }
  }

  predicate FullSlice(e: Event) {
    e.LoopCheck? && e.delta == TIME_SLICE
  }

  lemma OneSlice(s: State, e: Event)
    requires s.session == NO_SESSION && FullSlice(e)
    ensures Next(s, e) == s.(idle := s.idle + 5000, running := s.running && s.idle + 5000 <= 25000)
  {}

  /** Five full idle slices do not unload the service, the sixth does. */
  lemma {:induction false} SixthSliceUnloads(s: State, checks: seq<Event>)
    requires s.session == NO_SESSION && s.running && s.idle == 0
    requires |checks| <= 6 && forall e :: e in checks ==> FullSlice(e)
    ensures Run(s, checks) == s.(idle := |checks| * 5000, running := |checks| <= 5)
    decreases |checks|
  {
    if checks != [] {
      var front, e := checks[..|checks| - 1], checks[|checks| - 1];
      SixthSliceUnloads(s, front);
      assert Run(s, checks) == Next(Run(s, front), e);
      OneSlice(Run(s, front), e);
    }
  }
}
