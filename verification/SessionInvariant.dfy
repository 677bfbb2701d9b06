/**
  What every release of the service lock keeps: the agreement between the session
  fields, the callback table, the process controller, kiosk mode and the idle counter.
*/
module SessionInvariant {
  import opened Types
  import opened Environment
  import opened ProcessControl
  import opened Callbacks
  import opened Session
  import BundleNames

  /** No session: every field of the last one is gone. */
  ghost predicate IdleShape(s: State) {
    s.session == NO_SESSION && s.registry.entries == map[]
  }

  /** A session that waits for its confirmation or runs. */
  ghost predicate LiveShape(s: State) {
    && s.session.token.Some?
    && s.session.callback.Some?
    && s.registry.entries == map[s.session.token.value := s.session.callback.value]
    && s.registry.enrolled != []
    && s.registry.enrolled[|s.registry.enrolled| - 1]
       == Enrolment(s.session.token.value, s.session.callback.value)
    && s.session.apps != []
    && s.session.bundle == s.session.apps[|s.session.apps| - 1]
    && 0 < s.session.duration <= MAX_DURATION
    && s.running
    && s.idle == 0
  }

  ghost predicate ConfirmingShape(s: State) {
    && LiveShape(s)
    && s.session.endpoint == 0
    && s.session.locker == NoLock
  }

  ghost predicate ActiveShape(s: State) {
    && LiveShape(s)
    && s.session.endpoint >= s.session.duration
    && s.session.locker.Lock?
    && s.controls.call.registered
    && s.controls.screen.registered
    && s.device.kiosk
  }

  ghost predicate Inv(s: State) {
    && Conserved(s.controls)
    && (s.session.active <==> s.session.status == Active)
    && (s.session.active <==> s.controls.activated)
    && (s.session.active <==> s.session.envOk)
    && (s.session.status == Idle ==> IdleShape(s))
    && (s.session.status == Confirming ==> ConfirmingShape(s))
    && (s.session.status == Active ==> ActiveShape(s))
    && (s.running ==> s.idle <= SA_IDLE_MAX)
  }

  // ----- Pieces -----

  /** What a clean-up needs to find: at most the session's own table entry. */
  ghost predicate Tidy(s: State) {
    && Conserved(s.controls)
    && (forall k :: k in s.registry.entries ==> s.session.token == Some(k))
    && (s.running ==> s.idle <= SA_IDLE_MAX)
  }

  lemma CleanupEstablishes(s: State, r: Restore)
    requires Tidy(s)
    ensures Inv(Cleanup(s, r))
    ensures Cleanup(s, r).session == NO_SESSION
  {
    DeactivationRestores(s.controls, r);
    var entries := Withdraw(s.registry, s.session.token).entries;
    assert forall k :: k !in entries;
    assert entries == map[];
  }

  lemma ConcludeEstablishes(s: State, m: Option<Message>, r: Restore, a: ParamAnswers)
    requires Tidy(s)
    ensures Inv(Conclude(s, m, r, a))
    ensures Conclude(s, m, r, a).session == NO_SESSION
  {
    CleanupEstablishes(if m.Some? then Notify(s, m.value) else s, r);
  }

  lemma ExitKeepsSession(s: State, a: ExitAnswers)
    ensures
      var (s', exited) := ExitKiosk(s, a);
      && s' == s.(session := s.session.(locker := Released(s.session.locker)), device := s'.device)
      && (!exited ==> s'.device.kiosk == s.device.kiosk && s'.device.whitelist == s.device.whitelist)
      && (exited ==> !s'.device.kiosk && !s'.device.suspend && !s'.device.lid && !s'.device.powerKey)
  {}

  lemma InterruptKeepsInv(s: State, m: Message, c: Closing)
    requires Inv(s) && s.session.status == Active
    ensures Inv(Interrupt(s, m, c))
  {
    ExitKeepsSession(s, c.exit);
    var (s1, exited) := ExitKiosk(s, c.exit);
    if exited {
      ConcludeEstablishes(s1, Some(m), c.cleanup, c.params);
    }
  }

  lemma AppDieEstablishes(s: State, c: Closing)
    requires Inv(s)
    ensures Inv(AppDie(s, c))
    ensures AppDie(s, c).session == NO_SESSION
  {
    ExitKeepsSession(s, c.exit);
    ConcludeEstablishes(ExitKiosk(s, c.exit).0, None, c.cleanup, c.params);
  }

  lemma RefuseEstablishes(s: State, code: Code, r: Restore)
    requires Tidy(s)
    ensures Inv(Refuse(s, code, r))
    ensures Refuse(s, code, r).session == NO_SESSION
  {
    CleanupEstablishes(Notify(s, OnBegin(code)), r);
  }

  lemma EnterKeepsSession(s: State, a: EnterAnswers)
    ensures
      var (s', entered) := EnterKiosk(s, a);
      && s' == s.(session := s.session.(locker := s'.session.locker), device := s'.device)
      && (entered ==> s'.session.locker == Lock(true) && s'.device.kiosk
                      && s'.device.suspend && s'.device.lid && s'.device.powerKey)
  {}

  lemma RestrictKeepsSession(s: State, a: ConfirmAnswers)
    ensures
      var s' := Restrict(s, a).0;
      s' == s.(session := s.session.(locker := s'.session.locker), controls := s'.controls, device := s'.device)
  {
    EnterKeepsSession(s.(controls := ActivateResult(s.controls, a.activate, Blank).controls), a.enter);
  }

  lemma RestrictActivates(s: State, a: ConfirmAnswers)
    requires Conserved(s.controls) && !s.controls.activated
    ensures
      var (s', restricted) := Restrict(s, a);
      && Conserved(s'.controls)
      && (restricted ==> s'.controls.activated && s'.controls.call.registered && s'.controls.screen.registered
                         && s'.session.locker.Lock? && s'.device.kiosk)
  {
    ActivationOutcome(s.controls, a.activate);
    ActivationConserves(s.controls, a.activate);
    EnterKeepsSession(s.(controls := ActivateResult(s.controls, a.activate, Blank).controls), a.enter);
  }

  lemma ConfirmKeepsInv(s: State, a: ConfirmAnswers)
    requires Inv(s) && s.session.status == Confirming
    ensures Inv(ConfirmBegin(s, a))
    ensures var s' := ConfirmBegin(s, a); s'.session.status == Active || s'.session == NO_SESSION
  {
    var s1 := s.(session := s.session.(envOk := EnvSafe(s.env, a.sample)));
    RestrictKeepsSession(s1, a);
    RestrictActivates(s1, a);
    if !s1.session.envOk {
      RefuseEstablishes(s1, EnvAnomaly, a.cleanup);
    } else if !Restrict(s1, a).1 {
      RefuseEstablishes(Restrict(s1, a).0, SystemError, a.cleanup);
    }
  }

  lemma AdmitEstablishes(s: State, q: Request, cleanup: Restore)
    requires Inv(s) && !s.session.active && s.running && s.idle == 0
    requires q.apps != [] && q.token.Some? && q.callback.Some?
    ensures Inv(Admit(s, q, cleanup))
    ensures Admit(s, q, cleanup).session.status == Confirming
  {}

  /** While a session runs, callers change nothing but the idle counter, except by End. */
  lemma ActiveIgnores(s: State, e: Event)
    requires s.session.active && s.session.status == Active && FromCaller(e) && !e.End?
    ensures Next(s, e) == s.(idle := Next(s, e).idle)
  {}

  /** While a session waits for its confirmation, only these four events concern it. */
  predicate ConcernsWaiting(e: Event) {
    e.Begin? || e.Confirmation? || e.DialogError? || e.RemoteDied?
  }

  lemma WaitingIgnores(s: State, e: Event)
    requires !s.session.active && s.session.status == Confirming && !ConcernsWaiting(e)
    ensures Next(s, e) == s.(idle := Next(s, e).idle, params := Next(s, e).params)
  {}

  lemma AncoChangesParams(s: State, e: Event)
    requires e.AncoChanged?
    ensures Next(s, e) == s.(params := Next(s, e).params)
  {}

  // ----- Every critical section -----

  lemma BeginKeepsInv(s: State, q: Request, d: Dialog, cleanup: Restore, a: ConfirmAnswers)
    requires Inv(s)
    ensures Inv(BeginStep(s, q, d, cleanup, a))
  {
    if BeginCode(s, q) == ApiOk {
      var s0 := s.(idle := 0);
      AdmitEstablishes(s0, q, cleanup);
      ConfirmKeepsInv(Admit(s0, q, cleanup), a);
    }
  }

  lemma LoopKeepsInv(s: State, now: nat, delta: nat, c: Closing)
    requires Inv(s)
    ensures Inv(LoopStep(s, now, delta, c))
  {
    if s.session.active {
      InterruptKeepsInv(s, OnInterrupted(Timeout), c);
    }
  }

  lemma EndKeepsInv(s: State, token: Option<Remote>, uid: int, gate: Gate, c: Closing)
    requires Inv(s)
    ensures Inv(EndStep(s, token, uid, gate, c))
  {
    if s.session.active {
      InterruptKeepsInv(s.(idle := 0), OnEnd, c);
    }
  }

  lemma ConfirmationKeepsInv(s: State, ticket: string, operation: Operation, a: ConfirmAnswers, c: Closing)
    requires Inv(s)
    ensures Inv(ConfirmationStep(s, ticket, operation, a, c))
  {
    if Effective(s, ticket, operation) {
      if operation == Cancel {
        ConcludeEstablishes(s, Some(OnBegin(UserCancel)), c.cleanup, c.params);
      } else {
        ConfirmKeepsInv(s, a);
      }
    }
  }

  lemma AnomalyKeepsInv(s: State, c: Closing)
    requires Inv(s)
    ensures Inv(AnomalyStep(s, c))
  {
    if s.session.active {
      InterruptKeepsInv(s, OnInterrupted(EnvAnomaly), c);
    }
  }

  lemma CallerKeepsInv(s: State, e: Event)
    requires Inv(s) && FromCaller(e)
    ensures Inv(Next(s, e))
  {
    match e
    case Begin(q, d, cleanup, a) => BeginKeepsInv(s, q, d, cleanup, a);
    case End(token, uid, gate, c) => EndKeepsInv(s, token, uid, gate, c);
    case Query(gate) =>
    case Confirmation(ticket, operation, a, c) => ConfirmationKeepsInv(s, ticket, operation, a, c);
    case DialogError(ticket, c) => ConcludeEstablishes(s, Some(OnBegin(SystemError)), c.cleanup, c.params);
  }

  lemma SystemKeepsInv(s: State, e: Event)
    requires Inv(s) && !FromCaller(e)
    ensures Inv(Next(s, e))
  {
    match e
    case AppDied(bundle, c) => AppDieEstablishes(s, c);
    case RemoteDied(remote, c) => AppDieEstablishes(s, c);
    case Anomaly(c) => AnomalyKeepsInv(s, c);
    case ScreenConnected(screens, c) => AnomalyKeepsInv(s, c);
    case AncoChanged(isAncoKey, value, persist) =>
    case LoopCheck(now, delta, c) => LoopKeepsInv(s, now, delta, c);
  }

  lemma NextKeepsInv(s: State, e: Event)
    requires Inv(s)
    ensures Inv(Next(s, e))
  {
    if FromCaller(e) {
      CallerKeepsInv(s, e);
    } else {
      SystemKeepsInv(s, e);
    }
  }

  /** The invariant holds after every run of critical sections, whatever they answer. */
  lemma {:induction false} InvOnRuns(s: State, events: seq<Event>)
    requires Starting(s)
    ensures Inv(Run(s, events))
    decreases |events|
  {
    if events != [] {
      InvOnRuns(s, events[..|events| - 1]);
      NextKeepsInv(Run(s, events[..|events| - 1]), events[|events| - 1]);
    }
  }

  // ----- Consequences -----

  /** Over every run, and whatever the system and the extension answer: both listeners are
      registered exactly as often as their flags say, the extension is activated and
      deactivated alternately starting with an activation, and an activation without its
      deactivation is outstanding exactly while a session runs. */
  lemma RestrictionsAreBracketed(s: State, events: seq<Event>)
    requires Starting(s)
    ensures
      var s' := Run(s, events);
      var calls := s'.controls.extension.invocations;
      && Balanced(s'.controls.call) && Balanced(s'.controls.screen)
      && (forall i :: 0 <= i < |calls| ==> (calls[i] == ActivateAll <==> i % 2 == 0))
      && (s'.controls.extension.loader.Some? ==> (s'.session.active <==> |calls| % 2 == 1))
      && (s'.session.active ==> s'.controls.call.registered && s'.controls.screen.registered)
  {
    InvOnRuns(s, events);
  }

  /** A request opens a new session exactly when it is well formed and permitted, no
      session runs and the service is not unloading. The session is the caller's: its
      token, callback, uid and apps, its ticket, and its duration within eight hours. */
  lemma BeginAdmits(s: State, q: Request, d: Dialog, cleanup: Restore, a: ConfirmAnswers)
    requires Inv(s)
    ensures
      var s' := Next(s, Event.Begin(q, d, cleanup, a));
      var admitted := |s'.registry.enrolled| == |s.registry.enrolled| + 1;
      && (admitted <==> q.token.Some? && q.callback.Some? && q.apps != [] && q.gate == Gate(true, true)
                        && s.session.status != Active && s.running)
      && (!admitted ==> s' == s.(idle := s'.idle))
      && (admitted ==>
            && s'.ticket == q.ticket
            && (s'.session.status == Confirming <==> d.available && d.shown)
            && (s'.session.status == Idle
                || (s'.session.token == q.token && s'.session.callback == q.callback && s'.session.uid == q.uid
                    && s'.session.apps == q.apps
                    && s'.session.duration == (if 0 < q.duration < 28_800_000 then q.duration else 28_800_000))))
  {
    if BeginCode(s, q) == ApiOk {
      var s1 := Admit(s.(idle := 0), q, cleanup);
      AdmitEstablishes(s.(idle := 0), q, cleanup);
      ConfirmKeepsInv(s1, a);
      ConfirmKeepsRequest(s1, a);
    }
  }

  lemma ConfirmKeepsRequest(s: State, a: ConfirmAnswers)
    ensures
      var s' := ConfirmBegin(s, a);
      && s'.ticket == s.ticket
      && s'.registry.enrolled == s.registry.enrolled
      && (s'.session == NO_SESSION
          || (s'.session.token == s.session.token && s'.session.callback == s.session.callback
              && s'.session.uid == s.session.uid && s'.session.apps == s.session.apps
              && s'.session.duration == s.session.duration))
  {
    RestrictKeepsSession(s.(session := s.session.(envOk := EnvSafe(s.env, a.sample))), a);
  }

  /** A confirmation starts the session exactly when no check and no call fails: the
      environment, the two listeners, the extension, anco, the running lock, the three
      filters, the whitelist and kiosk mode. */
  lemma ConfirmationSucceedsExactly(s: State, a: ConfirmAnswers)
    requires Inv(s) && s.session.status == Confirming
    ensures
      ConfirmBegin(s, a).session.active
      <==>
      && EnvSafe(s.env, a.sample)
      && (forall stage :: Succeeds(s.controls, stage, a.activate))
      && Passes(s.env.loader.restrictAnco, a.enter.restrictAnco)
      && a.enter.lockCreated && a.enter.lockUsed
      && a.enter.power == PowerAnswers(true, true, true)
      && a.enter.addList && a.enter.enterKiosk
  {
    ActivationOutcome(s.controls, a.activate);
    assert (forall stage :: Succeeds(s.controls, stage, a.activate))
      <==> Succeeds(s.controls, CallObserver, a.activate) && Succeeds(s.controls, ScreenListener, a.activate)
           && Succeeds(s.controls, Extension, a.activate);
  }

  /** A connected screen interrupts a session only under the judgement that would have
      refused it admission, and then whenever kiosk mode can be left. */
  lemma HotplugJudgesLikeAdmission(s: State, screens: Option<seq<Screen>>, sample: Sample, c: Closing)
    requires Inv(s) && s.session.active && sample.screens == screens
    ensures
      var s' := Next(s, ScreenConnected(screens, c));
      var multi := screens.Some? && |screens.value| > 1
                   && exists i :: 0 <= i < |screens.value| && screens.value[i] != NullScreen
                                  && screens.value[i] != Known(true);
      && (s'.session == NO_SESSION <==> multi && ExitKiosk(s, c.exit).1)
      && (!multi ==> s' == s)
      && (multi ==> !EnvSafe(s.env, sample))
  {}

  lemma UnloadingStep(s: State, e: Event)
    requires s.session == NO_SESSION && !s.running
    ensures Next(s, e).session == NO_SESSION && !Next(s, e).running
  {}

  /** No session is stranded: once the loop has decided to unload, there is no session
      after any run, and every request to begin is refused. */
  lemma {:induction false} UnloadingIsFinal(s: State, events: seq<Event>, q: Request)
    requires Inv(s) && !s.running
    ensures Run(s, events).session == NO_SESSION && !Run(s, events).running
    ensures BeginCode(Run(s, events), q) != ApiOk
    decreases |events|
  {
    if events != [] {
      UnloadingIsFinal(s, events[..|events| - 1], q);
      UnloadingStep(Run(s, events[..|events| - 1]), events[|events| - 1]);
    }
  }

  /** When the allowed apps came from the binding for some caller, the exit of that
      caller's process ends the active session, and the exit of any other bundle, also
      of another allowed app, changes nothing. */
  lemma CallerExitCloses(s: State, input: seq<string>, caller: string, bundle: string, c: Closing)
    requires Inv(s) && s.session.active
    requires BundleNames.Canonical(s.session.apps, input, caller)
    ensures
      var s' := Next(s, AppDied(bundle, c));
      if bundle == caller then s'.session == NO_SESSION else s' == s
  {}

  /** End succeeds exactly for an active session, a non-null token, a permitted caller with
      the uid that began it, and when all exit calls succeed. Which token it is does not
      matter, although the documentation asks for the token of the begin. */
  lemma EndIgnoresWhichToken(s: State, token: Option<Remote>, token': Option<Remote>, uid: int, gate: Gate, c: Closing)
    requires token.Some? && token'.Some?
    ensures Next(s, End(token, uid, gate, c)) == Next(s, End(token', uid, gate, c))
    ensures EndCode(s, token, uid, gate, c) == EndCode(s, token', uid, gate, c)
    ensures EndCode(s, token, uid, gate, c) == ApiOk
       <==> gate == Gate(true, true) && s.session.active && s.session.uid == uid
            && c.exit.power == PowerAnswers(true, true, true) && Exits(c.exit)
  {}

  /** An active session ends through End only for the uid that began it, and only if
      kiosk mode could be left; otherwise it goes on with everything but the released
      running lock, the power filters and the idle counter as before. */
  lemma EndIsForTheOwner(s: State, token: Option<Remote>, uid: int, gate: Gate, c: Closing)
    requires Inv(s)
    ensures
      var s' := Next(s, End(token, uid, gate, c));
      var code := EndCode(s, token, uid, gate, c);
      && (code == ApiOk <==> s.session.active && !s'.session.active)
      && (code == ApiOk ==> s.session.uid == uid && token.Some? && gate == Gate(true, true))
      && (code == InvalidOperation <==> EndGate(token, gate) == ApiOk && s.session.active && s.session.uid != uid)
      && (code != ApiOk ==> s' == s.(idle := s'.idle, device := s'.device,
                                     session := s.session.(locker := s'.session.locker)))
  {}

  // ----- Histories -----

  /** Nothing that was sent or enrolled before is taken back or changed. */
  predicate Grows(r: Registry, r': Registry) {
    r.log <= r'.log && r.enrolled <= r'.enrolled
  }

  lemma ConcludeAppends(s: State, m: Option<Message>, r: Restore, a: ParamAnswers)
    ensures Grows(s.registry, Conclude(s, m, r, a).registry)
  {}

  lemma RefuseAppends(s: State, code: Code, r: Restore)
    ensures Grows(s.registry, Refuse(s, code, r).registry)
    ensures Refuse(s, code, r).registry.enrolled == s.registry.enrolled
  {}

  lemma ConfirmAppends(s: State, a: ConfirmAnswers)
    ensures Grows(s.registry, ConfirmBegin(s, a).registry)
    ensures ConfirmBegin(s, a).registry.enrolled == s.registry.enrolled
  {
    var s1 := s.(session := s.session.(envOk := EnvSafe(s.env, a.sample)));
    RestrictKeepsSession(s1, a);
    RefuseAppends(s1, EnvAnomaly, a.cleanup);
    RefuseAppends(Restrict(s1, a).0, SystemError, a.cleanup);
  }

  lemma BeginAppends(s: State, q: Request, d: Dialog, cleanup: Restore, a: ConfirmAnswers)
    ensures Grows(s.registry, BeginStep(s, q, d, cleanup, a).registry)
  {
    if BeginCode(s, q) == ApiOk {
      var s1 := Admit(s.(idle := 0), q, cleanup);
      assert Grows(s.registry, s1.registry);
      ConfirmAppends(s1, a);
    }
  }

  lemma InterruptAppends(s: State, m: Message, c: Closing)
    ensures Grows(s.registry, Interrupt(s, m, c).registry)
    ensures var log := Interrupt(s, m, c).registry.log; log == s.registry.log || log[|log| - 1].message == m
  {
    ExitKeepsSession(s, c.exit);
  }

  lemma EndAppends(s: State, token: Option<Remote>, uid: int, gate: Gate, c: Closing)
    ensures Grows(s.registry, EndStep(s, token, uid, gate, c).registry)
  {
    InterruptAppends(s.(idle := 0), OnEnd, c);
  }

  lemma CallerAppends(s: State, e: Event)
    requires FromCaller(e)
    ensures Grows(s.registry, Next(s, e).registry)
  {
    match e
    case Begin(q, d, cleanup, a) => BeginAppends(s, q, d, cleanup, a);
    case End(token, uid, gate, c) => EndAppends(s, token, uid, gate, c);
    case Query(gate) =>
    case Confirmation(ticket, operation, a, c) =>
      ConfirmAppends(s, a);
      ConcludeAppends(s, Some(OnBegin(UserCancel)), c.cleanup, c.params);
    case DialogError(ticket, c) => ConcludeAppends(s, Some(OnBegin(SystemError)), c.cleanup, c.params);
  }

  lemma AppDieAppends(s: State, c: Closing)
    ensures Grows(s.registry, AppDie(s, c).registry)
  {
    ExitKeepsSession(s, c.exit);
  }

  lemma HistoryGrows(s: State, e: Event)
    ensures Grows(s.registry, Next(s, e).registry)
  {
    if FromCaller(e) {
      CallerAppends(s, e);
    } else {
      match e
      case AppDied(bundle, c) => AppDieAppends(s, c);
      case RemoteDied(remote, c) => AppDieAppends(s, c);
      case Anomaly(c) => InterruptAppends(s, OnInterrupted(EnvAnomaly), c);
      case ScreenConnected(screens, c) => InterruptAppends(s, OnInterrupted(EnvAnomaly), c);
      case AncoChanged(isAncoKey, value, persist) => AncoChangesParams(s, e);
      case LoopCheck(now, delta, c) => InterruptAppends(s, OnInterrupted(Timeout), c);
    }
  }
}
