/**
  What every event does, exactly: which events open a session, which end its wait, which
  close it, and which error code a request gets, all in terms of the arguments and the
  answers of the outside world.
*/
module Outcomes {
  import opened Types
  import opened Environment
  import opened ProcessControl
  import opened Callbacks
  import opened Session
  import opened SessionInvariant
  import opened Kiosk

  // ----- Conditions on the answers -----

  /** The three filters can be lifted, and one of the three attempts leaves kiosk mode or
      finds none to leave. */
  predicate CanExit(a: ExitAnswers) {
    && a.power == PowerAnswers(true, true, true)
    && !(a.first == Failed && a.second == Failed && a.third == Failed)
  }

  /** Nothing speaks against the session and no call fails. */
  predicate CanOpen(s: State, a: ConfirmAnswers) {
    && Unsuspicious(s.env, a.sample)
    && (s.controls.call.registered || a.activate.addCall)
    && (s.controls.screen.registered || a.activate.addScreen)
    && (s.controls.extension.loader.Some? && s.controls.extension.loader.value.activateAll ==>
          a.activate.activateAll.ok)
    && (s.env.loader.restrictAnco ==> a.enter.restrictAnco)
    && a.enter.lockCreated && a.enter.lockUsed
    && a.enter.power == PowerAnswers(true, true, true)
    && a.enter.addList && a.enter.enterKiosk
  }

  predicate WellFormed(q: Request) {
    q.token.Some? && q.callback.Some? && q.apps != []
  }

  const PERMITTED := Gate(true, true)

  // ----- Error codes -----

  /** Each error code of begin has its one cause; the first that applies counts. */
  lemma BeginCodeByCause(s: State, q: Request)
    ensures BeginCode(s, q) == InvalidParams <==> !WellFormed(q)
    ensures BeginCode(s, q) == CapabilityNotSupport <==> WellFormed(q) && !q.gate.supported
    ensures BeginCode(s, q) == PermissionDenied <==> WellFormed(q) && q.gate == Gate(true, false)
    ensures BeginCode(s, q) == AlreadyActive <==> WellFormed(q) && q.gate == PERMITTED && s.session.active
    ensures BeginCode(s, q) == InternalError
       <==> WellFormed(q) && q.gate == PERMITTED && !s.session.active && !s.running
    ensures BeginCode(s, q) == ApiOk
       <==> WellFormed(q) && q.gate == PERMITTED && !s.session.active && s.running
  {}

  lemma EndCodeByCause(s: State, token: Option<Remote>, uid: int, gate: Gate, c: Closing)
    ensures
      var code := EndCode(s, token, uid, gate, c);
      var allowed := token.Some? && gate == PERMITTED;
      && (code == InvalidParams <==> token.None?)
      && (code == CapabilityNotSupport <==> token.Some? && !gate.supported)
      && (code == PermissionDenied <==> token.Some? && gate == Gate(true, false))
      && (code == NotActive <==> allowed && !s.session.active)
      && (code == InvalidOperation <==> allowed && s.session.active && s.session.uid != uid)
      && (code == InternalError <==> allowed && s.session.active && s.session.uid == uid && !CanExit(c.exit))
      && (code == ApiOk <==> allowed && s.session.active && s.session.uid == uid && CanExit(c.exit))
  {}

  // ----- Closing -----

  /** What closes this running session. */
  predicate Closes(running: Sess, e: Event) {
    match e
    case End(token, uid, gate, c) => token.Some? && gate == PERMITTED && uid == running.uid && CanExit(c.exit)
    case AppDied(bundle, c) => bundle == running.bundle
    case RemoteDied(remote, c) => remote == running.callback
    case Anomaly(c) => CanExit(c.exit)
    case ScreenConnected(screens, c) => MultiScreen(screens) && CanExit(c.exit)
    case LoopCheck(now, delta, c) => running.endpoint <= now && CanExit(c.exit)
    case _ => false
  }

  /** From s to s' the running session was closed or stayed, as closed says. */
  ghost predicate ClosedOrFrozen(s: State, s': State, closed: bool) {
    if closed then s'.session == NO_SESSION else Frozen(s, s')
  }

  lemma InterruptCloses(s: State, m: Message, c: Closing)
    requires Inv(s) && s.session.active
    ensures ClosedOrFrozen(s, Interrupt(s, m, c), CanExit(c.exit))
  {
    InterruptFreezesOrCloses(s, m, c);
  }

  lemma EndCloses(s: State, token: Option<Remote>, uid: int, gate: Gate, c: Closing)
    requires Inv(s) && s.session.active
    ensures ClosedOrFrozen(s, EndStep(s, token, uid, gate, c), Closes(s.session, End(token, uid, gate, c)))
  {
    InterruptCloses(s.(idle := 0), OnEnd, c);
  }

  lemma DeathCloses(s: State, c: Closing)
    requires Inv(s)
    ensures ClosedOrFrozen(s, AppDie(s, c), true)
  {
    AppDieEstablishes(s, c);
  }

  lemma LoopCloses(s: State, now: nat, delta: nat, c: Closing)
    requires Inv(s) && s.session.active
    ensures ClosedOrFrozen(s, LoopStep(s, now, delta, c), s.session.endpoint <= now && CanExit(c.exit))
  {
    InterruptCloses(s, OnInterrupted(Timeout), c);
  }

  lemma AnomalyCloses(s: State, c: Closing)
    requires Inv(s) && s.session.active
    ensures ClosedOrFrozen(s, AnomalyStep(s, c), CanExit(c.exit))
  {
    InterruptCloses(s, OnInterrupted(EnvAnomaly), c);
  }

  lemma SystemCloses(s: State, e: Event)
    requires Inv(s) && s.session.active && !FromCaller(e)
    ensures ClosedOrFrozen(s, Next(s, e), Closes(s.session, e))
  {
    match e
    case AppDied(bundle, c) => DeathCloses(s, c);
    case RemoteDied(remote, c) => DeathCloses(s, c);
    case Anomaly(c) => AnomalyCloses(s, c);
    case ScreenConnected(screens, c) => AnomalyCloses(s, c);
    case AncoChanged(isAncoKey, value, persist) => AncoChangesParams(s, e);
    case LoopCheck(now, delta, c) => LoopCloses(s, now, delta, c);
  }

  /** A running session is closed by exactly these events, and by no other. */
  lemma ClosesExactly(s: State, e: Event)
    requires Inv(s) && s.session.active
    ensures ClosedOrFrozen(s, Next(s, e), Closes(s.session, e))
  {
    if !FromCaller(e) {
      SystemCloses(s, e);
    } else if e.End? {
      EndCloses(s, e.token, e.uid, e.gate, e.closing);
    } else {
      ActiveIgnores(s, e);
    }
  }

  /** Over a whole run: a session that runs in a runs on through every event that does not
      close it, and ends with the first that does. Closing depends only on what the session
      was when it started. */
  lemma {:induction false} RunsUntilClosed(a: State, events: seq<Event>, e: Event)
    requires Inv(a) && a.session.active
    requires forall x :: x in events ==> !Closes(a.session, x)
    ensures
      var s := Run(a, events);
      Inv(s) && Frozen(a, s) && ClosedOrFrozen(a, Next(s, e), Closes(a.session, e))
    decreases |events|
  {
    if events != [] {
      var front, last := events[..|events| - 1], events[|events| - 1];
      RunsUntilClosed(a, front, last);
      NextKeepsInv(Run(a, front), last);
      assert Run(a, events) == Next(Run(a, front), last);
    }
    ClosesExactly(Run(a, events), e);
  }

  // ----- Ending a wait -----

  /** What ends the wait of this session for its confirmation. */
  predicate EndsWait(s: State, e: Event) {
    match e
    case Begin(q, d, cleanup, a) => WellFormed(q) && q.gate == PERMITTED
    case Confirmation(ticket, operation, a, c) => ticket == s.ticket && operation != OtherOperation
    case DialogError(ticket, c) => ticket == s.ticket
    case RemoteDied(remote, c) => remote == s.session.callback
    case _ => false
  }

  /** A waiting session goes on waiting unless one of these events comes; then a confirmed
      one starts if it can, a superseding one is enrolled, and otherwise there is none. */
  ghost predicate WaitOutcome(s: State, e: Event, s': State) {
    if !EndsWait(s, e) then s' == s.(idle := s'.idle, params := s'.params)
    else if e.Begin? then |s'.registry.enrolled| == |s.registry.enrolled| + 1
    else if e.Confirmation? && e.operation == Confirm && CanOpen(s, e.confirm)
    then s'.session.active && s'.registry.enrolled == s.registry.enrolled
    else s'.session == NO_SESSION && s'.registry.enrolled == s.registry.enrolled
  }

  lemma ConfirmOpensExactly(s: State, a: ConfirmAnswers)
    requires Inv(s) && s.session.status == Confirming
    ensures
      var s' := ConfirmBegin(s, a);
      && (if CanOpen(s, a) then s'.session.active else s'.session == NO_SESSION)
      && s'.registry.enrolled == s.registry.enrolled
  {
    RefusalNamesFirstFailure(s.env, a.sample);
    ConfirmationSucceedsExactly(s, a);
    ConfirmKeepsInv(s, a);
    ConfirmAppends(s, a);
    assert Succeeds(s.controls, CallObserver, a.activate) && Succeeds(s.controls, ScreenListener, a.activate)
           && Succeeds(s.controls, Extension, a.activate)
      <==> forall stage :: Succeeds(s.controls, stage, a.activate);
  }

  lemma ConcludeEnds(s: State, m: Option<Message>, r: Restore, a: ParamAnswers)
    ensures Conclude(s, m, r, a).session == NO_SESSION
    ensures Conclude(s, m, r, a).registry.enrolled == s.registry.enrolled
  {}

  lemma ConfirmationEndsWait(s: State, ticket: string, operation: Operation, a: ConfirmAnswers, c: Closing)
    requires Inv(s) && s.session.status == Confirming
    ensures WaitOutcome(s, Confirmation(ticket, operation, a, c), ConfirmationStep(s, ticket, operation, a, c))
  {
    ConfirmOpensExactly(s, a);
    ConcludeEnds(s, Some(OnBegin(UserCancel)), c.cleanup, c.params);
  }

  lemma BeginEndsWait(s: State, q: Request, d: Dialog, cleanup: Restore, a: ConfirmAnswers)
    requires Inv(s) && s.session.status == Confirming
    ensures WaitOutcome(s, Event.Begin(q, d, cleanup, a), BeginStep(s, q, d, cleanup, a))
  {
    BeginAdmits(s, q, d, cleanup, a);
  }

  lemma DialogErrorEndsWait(s: State, ticket: string, c: Closing)
    requires Inv(s) && s.session.status == Confirming
    ensures WaitOutcome(s, DialogError(ticket, c), DialogErrorStep(s, ticket, c))
  {
    ConcludeEnds(s, Some(OnBegin(SystemError)), c.cleanup, c.params);
  }

  lemma DeathEndsWait(s: State, remote: Option<Remote>, c: Closing)
    requires Inv(s) && s.session.status == Confirming
    ensures WaitOutcome(s, RemoteDied(remote, c), RemoteDiedStep(s, remote, c))
  {
    ExitKeepsSession(s, c.exit);
    ConcludeEnds(ExitKiosk(s, c.exit).0, None, c.cleanup, c.params);
  }

  lemma WaitEndsExactly(s: State, e: Event)
    requires Inv(s) && s.session.status == Confirming
    ensures WaitOutcome(s, e, Next(s, e))
  {
    match e
    case Begin(q, d, cleanup, a) => BeginEndsWait(s, q, d, cleanup, a);
    case Confirmation(ticket, operation, a, c) => ConfirmationEndsWait(s, ticket, operation, a, c);
    case DialogError(ticket, c) => DialogErrorEndsWait(s, ticket, c);
    case RemoteDied(remote, c) => DeathEndsWait(s, remote, c);
    case _ => WaitingIgnores(s, e);
  }

  // ----- Opening -----

  /** An accepted begin waits for its dialog if there is one, and otherwise opens its
      session if it can. */
  lemma BeginOpensExactly(s: State, q: Request, d: Dialog, cleanup: Restore, a: ConfirmAnswers)
    requires Inv(s) && !s.session.active
    ensures
      var s' := BeginStep(s, q, d, cleanup, a);
      var accepted := WellFormed(q) && q.gate == PERMITTED && s.running;
      && (s'.session.active <==> accepted && !(d.available && d.shown) && CanOpen(s, a))
      && (accepted && d.available && d.shown ==> s'.session.status == Confirming && s'.ticket == q.ticket)
      && (!accepted ==> s' == s.(idle := s'.idle))
  {
    if BeginCode(s, q) == ApiOk {
      var s1 := Admit(s.(idle := 0), q, cleanup);
      AdmitEstablishes(s.(idle := 0), q, cleanup);
      assert s1.controls == s.controls && s1.env == s.env;
      ConfirmOpensExactly(s1, a);
    }
  }

  /** A session starts in exactly these two ways. */
  predicate Opens(s: State, e: Event) {
    match e
    case Begin(q, d, cleanup, a) =>
      WellFormed(q) && q.gate == PERMITTED && s.running && !(d.available && d.shown) && CanOpen(s, a)
    case Confirmation(ticket, operation, a, c) =>
      s.session.status == Confirming && ticket == s.ticket && operation == Confirm && CanOpen(s, a)
    case _ => false
  }

  /** Without a session, only an accepted begin does more than count idle time, stop the
      loop or write a parameter again. */
  lemma IdleIgnores(s: State, e: Event)
    requires Inv(s) && s.session.status == Idle
    requires e.Begin? ==> BeginCode(s, e.request) != ApiOk
    ensures
      var s' := Next(s, e);
      s' == s.(idle := s'.idle, running := s'.running, params := s'.params)
  {}

  lemma OpensExactly(s: State, e: Event)
    requires Inv(s) && !s.session.active
    ensures Next(s, e).session.active <==> Opens(s, e)
  {
    if e.Begin? {
      BeginOpensExactly(s, e.request, e.dialog, e.cleanup, e.confirm);
    } else if s.session.status == Confirming {
      WaitEndsExactly(s, e);
    } else {
      IdleIgnores(s, e);
    }
  }

  // ----- Whitelist round trip -----

  /** The whitelist an exit leaves: the list goes only if the exit and the deletion succeed. */
  function AfterExit(s: State, a: ExitAnswers): set<string> {
    if CanExit(a) && a.deleteList then s.device.whitelist - Elements(FinalAppList(s.session.apps, a.ime))
    else s.device.whitelist
  }

  lemma ExitDeletes(s: State, a: ExitAnswers)
    ensures ExitKiosk(s, a).0.device.whitelist == AfterExit(s, a)
  {}

  lemma InterruptDeletes(s: State, m: Message, c: Closing)
    ensures Interrupt(s, m, c).device.whitelist == AfterExit(s, c.exit)
  {
    ExitDeletes(s, c.exit);
  }

  lemma DeathDeletes(s: State, c: Closing)
    ensures AppDie(s, c).device.whitelist == AfterExit(s, c.exit)
  {
    ExitDeletes(s, c.exit);
  }

  lemma EndDeletes(s: State, e: Event)
    requires Inv(s) && s.session.active && e.End? && Closes(s.session, e)
    ensures Next(s, e).device.whitelist == AfterExit(s, e.closing.exit)
  {
    InterruptDeletes(s.(idle := 0), OnEnd, e.closing);
  }

  lemma LoopDeletes(s: State, now: nat, delta: nat, c: Closing)
    requires Inv(s) && s.session.active && s.session.endpoint <= now
    ensures LoopStep(s, now, delta, c).device.whitelist == AfterExit(s, c.exit)
  {
    InterruptDeletes(s, OnInterrupted(Timeout), c);
  }

  lemma AnomalyDeletes(s: State, c: Closing)
    requires Inv(s) && s.session.active
    ensures AnomalyStep(s, c).device.whitelist == AfterExit(s, c.exit)
  {
    InterruptDeletes(s, OnInterrupted(EnvAnomaly), c);
  }

  /** However a session is closed, its list is deleted if the calls succeed. */
  lemma ClosingDeletes(s: State, e: Event)
    requires Inv(s) && s.session.active && Closes(s.session, e)
    ensures Next(s, e).device.whitelist == AfterExit(s, e.closing.exit)
  {
    match e
    case End(token, uid, gate, c) => EndDeletes(s, e);
    case AppDied(bundle, c) => DeathDeletes(s, c);
    case RemoteDied(remote, c) => DeathDeletes(s, c);
    case Anomaly(c) => AnomalyDeletes(s, c);
    case ScreenConnected(screens, c) => AnomalyDeletes(s, c);
    case LoopCheck(now, delta, c) => LoopDeletes(s, now, delta, c);
  }

  /** From admission through any run to whatever closes the session: the whitelist ends as
      it was, with the list added on entry and without the one deleted on exit. If the
      default input method is the same again, nothing of the list stays behind. */
  lemma WhitelistRoundTrip(s: State, a: ConfirmAnswers, events: seq<Event>, e: Event)
    requires Inv(s) && s.session.status == Confirming && ConfirmBegin(s, a).session.active
    requires
      var running := ConfirmBegin(s, a).session;
      Closes(running, e) && forall x :: x in events ==> !Closes(running, x)
    ensures
      var before, after := s.device.whitelist, Next(Run(ConfirmBegin(s, a), events), e).device.whitelist;
      var added := Elements(FinalAppList(s.session.apps, a.enter.ime));
      var exit := e.closing.exit;
      if CanExit(exit) && exit.deleteList
      then && after == before + added - Elements(FinalAppList(s.session.apps, exit.ime))
           && (exit.ime == a.enter.ime ==> after == before - added)
           && (exit.ime == a.enter.ime && before !! added ==> after == before)
      else after == before + added
  {
    var s1 := ConfirmBegin(s, a);
    ConfirmKeepsInv(s, a);
    OpenedIsListed(s, a);
    RunsUntilClosed(s1, events, e);
    ClosingDeletes(Run(s1, events), e);
  }
}
