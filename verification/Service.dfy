/**
  The assessment service: the methods that run under mutexSa_, each proved to make
  exactly the transition of module Session.
*/
module Service {
  import opened Types
  import opened Environment
  import opened ProcessControl
  import opened Callbacks
  import opened Session

  class AssessmentService {
    const processController: ProcessController
    const callbackManager: CallbackManager
    const envChecker: EnvChecker

    var session: Sess
    var ticket: string
    var accumulateIdleTime: nat
    var running: bool
    var isWaitingAncoActive: bool
    ghost var device: Device
    ghost var ledger: Ledger

    /** A service after Init: the extension is loaded, the parameters reset to false. */
    constructor (library: Library, callClient: bool, ghost device: Device)
      ensures Starting(Abs())
      ensures fresh(processController) && fresh(callbackManager)
    {
      processController := new ProcessController(Some(library));
      callbackManager := new CallbackManager();
      envChecker := new EnvChecker(library, callClient);
      session, ticket, accumulateIdleTime, running := NO_SESSION, "", 0, true;
      isWaitingAncoActive := false;
      this.device := device;
      ledger := Ledger(false, false, false, false);
    }

    ghost function Abs(): State
      reads this, processController, callbackManager, processController.extLoader, envChecker.loader
    {
      State(session, ticket, accumulateIdleTime, running, callbackManager.Abs(), processController.Abs(),
            device, Params(isWaitingAncoActive, ledger), envChecker.Abs())
    }

    // ----- Session bookkeeping -----

    method CleanupCurrentSession(r: Restore)
      modifies this, processController, callbackManager
      ensures Abs() == Cleanup(old(Abs()), r)
    {
      var restoreFailReason := processController.Deactivate(r, Blank);
      if session.token.Some? {
        var _ := callbackManager.UnregisterCallback(session.token);
      }
      session := NO_SESSION;
    }

    method ConfigCurrentSession(q: Request)
      requires q.apps != []
      modifies this, callbackManager
      ensures Abs() == Configure(old(Abs()), q)
    {
      ticket := q.ticket;
      var _ := callbackManager.RegisterCallback(q.token, q.callback);
      var length := Min(q.duration, MAX_DURATION);
      session := Sess(Confirming, false, q.token, q.callback, if length == 0 then MAX_DURATION else length, q.apps,
                      q.apps[|q.apps| - 1], 0, q.uid, session.envOk, session.locker);
    }

    method UpdateState(a: ParamAnswers) returns (ok: bool)
      modifies this
      ensures Abs() == old(Abs()).(params := UpdateParams(old(Abs()).params, session.active, a))
      ensures ok == if AncoAwake(a.anco) then a.persist else Passes(old(Abs()).env.loader.awakeAnco, a.awake)
    {
      if a.anco == "" || a.anco == "0" {
        ledger := WritePersisted(ledger, session.active, a.persist);
        ok := a.persist;
      } else {
        isWaitingAncoActive := true;
        ok := envChecker.AwakeAnco(a.awake);
      }
    }

    method SaveState(a: ParamAnswers)
      modifies this
      ensures Abs() == Save(old(Abs()), a)
    {
      var _ := UpdateState(a);
      ledger := WriteShared(ledger, session.active, a.share);
    }

    method ClearState(a: ParamAnswers)
      modifies this
      ensures Abs() == Clear(old(Abs()), a)
    {
      var _ := UpdateState(a);
      ledger := WriteShared(ledger, false, a.share);
    }

    method RemarkSaIdle()
      modifies this
      ensures Abs() == old(Abs()).(idle := 0)
    {
      accumulateIdleTime := 0;
    }

    // ----- Kiosk mode -----

    method SetScreenOffFilters(enable: bool, a: PowerAnswers) returns (ok: bool)
      modifies this
      ensures Abs() == old(Abs()).(device := RestrictScreenOff(old(device), enable, a).0)
      ensures ok == RestrictScreenOff(old(device), enable, a).1
    {
      ok := a.suspend;
      if ok {
        device := device.(suspend := enable);
        ok := a.lid;
        if ok {
          device := device.(lid := enable);
          ok := a.powerKey;
          if ok {
            device := device.(powerKey := enable);
          }
        }
      }
    }

    method HoldScreenRunning(a: EnterAnswers) returns (held: bool)
      modifies this
      ensures Abs() == old(Abs()).(session := old(session).(locker := HoldScreen(a)))
      ensures held == (HoldScreen(a) == Lock(true))
    {
      if a.lockCreated {
        session := session.(locker := Lock(a.lockUsed));
        held := a.lockUsed;
      } else {
        session := session.(locker := NoLock);
        held := false;
      }
    }

    /** The default input method up to the first '/', found by scanning for it. */
    static method FindImeBundle(ime: string) returns (name: string)
      ensures name == ImeBundle(ime)
    {
      var pos := 0;
      while pos < |ime| && ime[pos] != '/'
        invariant 0 <= pos <= |ime|
        invariant SlashAt(ime, pos) == SlashAt(ime, 0)
      {
        pos := pos + 1;
      }
      name := ime[..pos];
    }

    method FinalApps(ime: string) returns (list: seq<string>)
      ensures list == FinalAppList(session.apps, ime)
    {
      list := session.apps + PRESET_KIOSK_BUNDLE_LIST;
      if ime != "" {
        var name := FindImeBundle(ime);
        list := list + [name];
      }
    }

    method EnterKioskMode(a: EnterAnswers) returns (ok: bool)
      modifies this
      ensures (Abs(), ok) == EnterKiosk(old(Abs()), a)
    {
      var restrictedAnco := envChecker.RestrictAncoApp(a.restrictAnco);
      if !restrictedAnco {
        return false;
      }
      var held := HoldScreenRunning(a);
      var restricted := SetScreenOffFilters(true, a.power);
      if !held || !restricted {
        return false;
      }
      var whiteAppList := FinalApps(a.ime);
      if !a.addList {
        return false;
      }
      device := AddToWhitelist(device, whiteAppList, a.ime);
      if a.enterKiosk {
        device := WithKiosk(device, true);
      }
      return a.enterKiosk;
    }

    /** Three tries with a pause; a benign code counts as success. */
    method TryExitKiosk(a: ExitAnswers) returns (ok: bool)
      modifies this
      ensures Abs() == old(Abs()).(device := if Exits(a) then WithKiosk(old(device), false) else old(device))
      ensures ok == Exits(a)
    {
      var codes := [a.first, a.second, a.third];
      var i := 0;
      ok := false;
      while i < 3 && !ok
        invariant 0 <= i <= 3 && |codes| == 3
        invariant !ok ==> forall k :: 0 <= k < i ==> codes[k] == Failed
        invariant ok ==> 0 < i && codes[i - 1] != Failed
      {
        ok := codes[i] == Left || codes[i] == Benign;
        i := i + 1;
      }
      assert codes[0] == a.first && codes[1] == a.second && codes[2] == a.third;
      if ok {
        device := WithKiosk(device, false);
      }
    }

    method ExitKioskMode(a: ExitAnswers) returns (ok: bool)
      modifies this
      ensures (Abs(), ok) == ExitKiosk(old(Abs()), a)
    {
      session := session.(locker := Released(session.locker));
      var restored := SetScreenOffFilters(false, a.power);
      if !restored {
        return false;
      }
      ok := TryExitKiosk(a);
      if ok {
        var whiteAppList := FinalApps(a.ime);
        if a.deleteList {
          device := RemoveFromWhitelist(device, whiteAppList);
        }
      }
    }

    // ----- Opening a session -----

    method Reject(code: Code, r: Restore)
      modifies this, processController, callbackManager
      ensures Abs() == Refuse(old(Abs()), code, r)
    {
      callbackManager.Send(session.token, OnBegin(code));
      CleanupCurrentSession(r);
    }

    method ConfirmationBegin(a: ConfirmAnswers)
      modifies this, processController, callbackManager
      ensures Abs() == ConfirmBegin(old(Abs()), a)
    {
      var safe := CheckEnvironment(a.sample);
      if !safe {
        Reject(EnvAnomaly, a.cleanup);
        return;
      }
      var restricted := RestrictDevice(a);
      if !restricted {
        Reject(SystemError, a.cleanup);
        return;
      }
      StartCountdown(a);
    }

    method CheckEnvironment(sample: Sample) returns (safe: bool)
      modifies this
      ensures Abs() == old(Abs()).(session := old(session).(envOk := EnvSafe(old(Abs()).env, sample)))
      ensures safe == EnvSafe(old(Abs()).env, sample)
    {
      var failReason;
      safe, failReason := envChecker.CheckAll(sample, Blank);
      session := session.(envOk := safe);
    }

    method RestrictDevice(a: ConfirmAnswers) returns (ok: bool)
      modifies this, processController
      ensures (Abs(), ok) == Restrict(old(Abs()), a)
    {
      var ctrlFailReason;
      ok, ctrlFailReason := processController.Activate(a.activate, Blank);
      if ok {
        ok := EnterKioskMode(a.enter);
      }
    }

    method StartCountdown(a: ConfirmAnswers)
      modifies this, callbackManager
      ensures Abs() == Notify(Save(Open(old(Abs()), a.clock), a.params), OnBegin(Success))
    {
      session := session.(endpoint := a.clock + session.duration, active := true, status := Active);
      SaveState(a.params);
      callbackManager.Send(session.token, OnBegin(Success));
    }

    method CheckBeginPreconditions(q: Request) returns (code: ApiCode)
      ensures code == BeginGate(q)
    {
      if q.token.None? || q.callback.None? || q.apps == [] {
        return InvalidParams;
      }
      if !q.gate.supported {
        return CapabilityNotSupport;
      }
      if !q.gate.permitted {
        return PermissionDenied;
      }
      return ApiOk;
    }

    method Begin(q: Request, dialog: Dialog, cleanup: Restore, a: ConfirmAnswers)
      returns (code: ApiCode, notified: bool)
      modifies this, processController, callbackManager
      ensures Abs() == BeginStep(old(Abs()), q, dialog, cleanup, a)
      ensures code == BeginCode(old(Abs()), q)
      ensures notified == Notifies(old(Abs()), Event.Begin(q, dialog, cleanup, a))
    {
      code := CheckBeginPreconditions(q);
      if code != ApiOk {
        return code, false;
      }
      RemarkSaIdle();
      if session.active {
        return AlreadyActive, false;
      }
      if !running {
        return InternalError, false;
      }
      Occupy(q, cleanup);
      if dialog.available && dialog.shown {
        return ApiOk, false;
      }
      ConfirmationBegin(a);
      return ApiOk, true;
    }

    method Occupy(q: Request, cleanup: Restore)
      requires q.apps != []
      modifies this, processController, callbackManager
      ensures Abs() == Admit(old(Abs()), q, cleanup)
    {
      if session.status == Confirming {
        callbackManager.Send(session.token, OnBegin(SystemError));
      }
      CleanupCurrentSession(cleanup);
      ConfigCurrentSession(q);
    }

    /** The answer of the confirmation dialog. */
    method HandleBegin(answered: string, operation: Operation, a: ConfirmAnswers, c: Closing) returns (notified: bool)
      modifies this, processController, callbackManager
      ensures Abs() == ConfirmationStep(old(Abs()), answered, operation, a, c)
      ensures notified == Notifies(old(Abs()), Confirmation(answered, operation, a, c))
    {
      if operation == OtherOperation {
        return false;
      }
      if session.status != Confirming || ticket != answered {
        return false;
      }
      if operation == Cancel {
        Finish(Some(OnBegin(UserCancel)), c);
        return false;
      }
      ConfirmationBegin(a);
      return true;
    }

    method BeginDialogSystemError(failed: string, c: Closing)
      modifies this, processController, callbackManager
      ensures Abs() == DialogErrorStep(old(Abs()), failed, c)
    {
      if ticket != failed || session.active {
        return;
      }
      Finish(Some(OnBegin(SystemError)), c);
    }

    // ----- Closing a session -----

    method Finish(m: Option<Message>, c: Closing)
      modifies this, processController, callbackManager
      ensures Abs() == Conclude(old(Abs()), m, c.cleanup, c.params)
    {
      if m.Some? {
        callbackManager.Send(session.token, m.value);
      }
      CleanupCurrentSession(c.cleanup);
      ClearState(c.params);
    }

    /** End, Timeout and EnvAnomaly: nothing happens unless kiosk mode was left. */
    method ExitAndFinish(m: Message, c: Closing) returns (exited: bool)
      modifies this, processController, callbackManager
      ensures Abs() == Interrupt(old(Abs()), m, c)
      ensures exited == ExitKiosk(old(Abs()), c.exit).1
    {
      exited := ExitKioskMode(c.exit);
      if exited {
        Finish(Some(m), c);
      }
    }

    method CheckEndPreconditions(token: Option<Remote>, gate: Gate) returns (code: ApiCode)
      ensures code == EndGate(token, gate)
    {
      if token.None? {
        return InvalidParams;
      }
      if !gate.supported {
        return CapabilityNotSupport;
      }
      if !gate.permitted {
        return PermissionDenied;
      }
      return ApiOk;
    }

    method End(token: Option<Remote>, uid: int, gate: Gate, c: Closing) returns (code: ApiCode)
      modifies this, processController, callbackManager
      ensures Abs() == EndStep(old(Abs()), token, uid, gate, c)
      ensures code == EndCode(old(Abs()), token, uid, gate, c)
    {
      code := CheckEndPreconditions(token, gate);
      if code != ApiOk {
        return;
      }
      RemarkSaIdle();
      if !session.active {
        return NotActive;
      }
      if session.uid != uid {
        return InvalidOperation;
      }
      var exited := ExitAndFinish(OnEnd, c);
      return if exited then ApiOk else InternalError;
    }

    method AppDieLocked(c: Closing)
      modifies this, processController, callbackManager
      ensures Abs() == AppDie(old(Abs()), c)
    {
      var _ := ExitKioskMode(c.exit);
      Finish(None, c);
    }

    method AppDieHandle(bundle: string, c: Closing)
      modifies this, processController, callbackManager
      ensures Abs() == AppDiedStep(old(Abs()), bundle, c)
    {
      if !session.active || session.bundle != bundle {
        return;
      }
      AppDieLocked(c);
    }

    method OnRemoteDied(remote: Option<Remote>, c: Closing)
      modifies this, processController, callbackManager
      ensures Abs() == RemoteDiedStep(old(Abs()), remote, c)
    {
      if remote.Some? && remote == session.callback {
        AppDieLocked(c);
      }
    }

    /** Reached by a closed lid and by the extreme power-save mode. */
    method EnvAnomalyLocked(c: Closing)
      modifies this, processController, callbackManager
      ensures Abs() == AnomalyStep(old(Abs()), c)
    {
      if !session.active || session.token.None? {
        return;
      }
      var _ := ExitAndFinish(OnInterrupted(EnvAnomaly), c);
    }

    method OnExternalScreenConnected(screens: Option<seq<Screen>>, c: Closing)
      modifies this, processController, callbackManager
      ensures Abs() == ScreenConnectedStep(old(Abs()), screens, c)
    {
      if !session.active {
        return;
      }
      var multi := envChecker.IsMultiScreen(screens);
      if multi {
        EnvAnomalyLocked(c);
      }
    }

    method AncoStateChangeCallback(isAncoKey: bool, value: string, persist: bool)
      modifies this
      ensures Abs() == AncoStep(old(Abs()), isAncoKey, value, persist)
    {
      if isWaitingAncoActive && isAncoKey && value == "0" {
        ledger := WritePersisted(ledger, session.active, persist);
        isWaitingAncoActive := false;
      }
    }

    /** IsActive and GetConfiguration only read, but count as requests. */
    method GetConfiguration(gate: Gate) returns (code: ApiCode, active: bool, duration: nat, apps: seq<string>)
      modifies this
      ensures Abs() == QueryStep(old(Abs()), gate)
      ensures code == ApiOk ==> active == session.active && duration == session.duration && apps == session.apps
      ensures code == GateCode(gate)
    {
      if !gate.supported {
        return CapabilityNotSupport, false, 0, [];
      }
      if !gate.permitted {
        return PermissionDenied, false, 0, [];
      }
      RemarkSaIdle();
      return ApiOk, session.active, session.duration, session.apps;
    }

    // ----- Timer loop -----

    method ComputeNextTaskTimeout(now: nat) returns (timeout: nat)
      ensures timeout == NextTimeout(Abs(), now)
    {
      if !session.active || session.token.None? {
        return TIME_SLICE;
      }
      if now >= session.endpoint {
        return 0;
      }
      var delta := session.endpoint - now;
      if delta > TIME_SLICE {
        return TIME_SLICE;
      }
      return delta;
    }

    method CheckEndpointAndExecuteTask(now: nat, c: Closing)
      modifies this, processController, callbackManager
      ensures Abs() == CheckEndpoint(old(Abs()), now, c)
    {
      if !session.active || session.token.None? {
        return;
      }
      if now >= session.endpoint {
        var _ := ExitAndFinish(OnInterrupted(Timeout), c);
      }
    }

    method CheckAndHandleSaIdle(delta: nat)
      modifies this
      ensures Abs() == CheckIdle(old(Abs()), delta)
    {
      if !session.active && session.status == Idle {
        accumulateIdleTime := accumulateIdleTime + delta;
        if accumulateIdleTime > SA_IDLE_MAX {
          running := false;
        }
      } else {
        accumulateIdleTime := 0;
      }
    }

    /** The part of one loop round after the wait: start and end are the steady clock
        before the wait and after the check, timeout the wait that was asked for. */
    method AfterWait(now: nat, start: int, end: int, timeout: nat, c: Closing)
      modifies this, processController, callbackManager
      ensures Abs() == LoopStep(old(Abs()), now, Min(Max(0, end - start), timeout), c)
    {
      CheckEndpointAndExecuteTask(now, c);
      var delta := Min(Max(0, end - start), timeout);
      CheckAndHandleSaIdle(delta);
    }

    // ----- All entry points -----

    method ServeCaller(e: Event) returns (notified: bool)
      requires FromCaller(e)
      modifies this, processController, callbackManager
      ensures Abs() == Next(old(Abs()), e)
      ensures notified == Notifies(old(Abs()), e)
    {
      notified := false;
      match e
      case Begin(q, d, cleanup, a) =>
        var code;
        code, notified := Begin(q, d, cleanup, a);
      case End(token, uid, gate, c) => var _ := End(token, uid, gate, c);
      case Query(gate) => var _, _, _, _ := GetConfiguration(gate);
      case Confirmation(answered, operation, a, c) => notified := HandleBegin(answered, operation, a, c);
      case DialogError(failed, c) => BeginDialogSystemError(failed, c);
    }

    method ServeSystem(e: Event)
      requires !FromCaller(e)
      modifies this, processController, callbackManager
      ensures Abs() == Next(old(Abs()), e)
    {
      match e
      case AppDied(bundle, c) => AppDieHandle(bundle, c);
      case RemoteDied(remote, c) => OnRemoteDied(remote, c);
      case Anomaly(c) => EnvAnomalyLocked(c);
      case ScreenConnected(screens, c) => OnExternalScreenConnected(screens, c);
      case AncoChanged(isAncoKey, value, persist) => AncoStateChangeCallback(isAncoKey, value, persist);
      case LoopCheck(now, delta, c) =>
        CheckEndpointAndExecuteTask(now, c);
        CheckAndHandleSaIdle(delta);
    }

    /** Every entry point, by the event it serves. */
    method Serve(e: Event) returns (notified: bool)
      modifies this, processController, callbackManager
      ensures Abs() == Next(old(Abs()), e)
      ensures notified == Notifies(old(Abs()), e)
    {
      if FromCaller(e) {
        notified := ServeCaller(e);
      } else {
        ServeSystem(e);
        notified := false;
      }
    }

    method ServeAll(events: seq<Event>)
      modifies this, processController, callbackManager
      ensures Abs() == Run(old(Abs()), events)
    {
      var i := 0;
      while i < |events|
        invariant 0 <= i <= |events|
        invariant Abs() == Run(old(Abs()), events[..i])
      {
        assert events[..i + 1][..i] == events[..i];
        var _ := Serve(events[i]);
        i := i + 1;
      }
      assert events[..i] == events;
    }

    /** The timer loop, for the rounds it is given or until it decides to unload.
        Other sections run while it waits and between two rounds. */
    method DoLoop(rounds: seq<Round>)
      requires running
      modifies this, processController, callbackManager
      ensures Abs() == AfterRounds(old(Abs()), rounds)
    {
      running := true;
      var i := 0;
      while i < |rounds| && running
        invariant 0 <= i <= |rounds|
        invariant AfterRounds(Abs(), rounds[i..]) == AfterRounds(old(Abs()), rounds)
      {
        ghost var s := Abs();
        DoRound(rounds[i]);
        RoundThenRest(s, rounds[i..]);
        assert rounds[i..][1..] == rounds[i + 1..];
        i := i + 1;
      }
    }

    method DoRound(r: Round)
      modifies this, processController, callbackManager
      ensures Abs() == Run(old(Abs()), RoundEvents(old(Abs()), r))
    {
      ServeAll(r.before);
      ghost var s := Abs();
      if running {
        WaitAndCheck(r);
        RunConcat(old(Abs()), r.before, r.others + [RoundCheck(s, r)]);
      }
    }

    method WaitAndCheck(r: Round)
      modifies this, processController, callbackManager
      ensures Abs() == Run(old(Abs()), r.others + [RoundCheck(old(Abs()), r)])
    {
      var timeout := ComputeNextTaskTimeout(r.read);
      ServeAll(r.others);
      AfterWait(r.now, r.start, r.end, timeout, r.closing);
      RunOne(old(Abs()), r.others, RoundCheck(old(Abs()), r));
    }
  }

  lemma RunOne(s: State, others: seq<Event>, e: Event)
    ensures Run(s, others + [e]) == Next(Run(s, others), e)
  {}
}
