/**
  The deferred write of the persistent parameter.

  While anco sleeps the write is put off until the parameter watch reports that it woke
  up. The reference is the same service on a device where anco is always awake and every
  write succeeds: it writes on every save and clear.
*/
module Persistence {
  import opened Types
  import opened Environment
  import opened ProcessControl
  import opened Callbacks
  import opened Session
  import opened SessionInvariant

  /** A persisted flag that is neither deferred nor failed agrees with isActive_, and so
      does the shared flag unless its last write failed. */
  ghost predicate Persisted(s: State) {
    && (!s.params.waiting && !s.params.ledger.persistFailed ==> s.params.ledger.persisted == s.session.active)
    && (!s.params.ledger.sharedFailed ==> s.params.ledger.shared == s.session.active)
  }

  const EAGER := ParamAnswers("", true, true, true)

  function EagerClosing(c: Closing): Closing {
    Closing(c.exit, c.cleanup, EAGER)
  }

  function EagerConfirm(a: ConfirmAnswers): ConfirmAnswers {
    ConfirmAnswers(a.sample, a.activate, a.enter, a.clock, EAGER, a.cleanup)
  }

  /** The same event on a device that is always awake and never fails a write. */
  function EagerEvent(e: Event): Event {
    match e
    case Begin(q, d, cleanup, a) => Begin(q, d, cleanup, EagerConfirm(a))
    case End(token, uid, gate, c) => End(token, uid, gate, EagerClosing(c))
    case Query(gate) => e
    case Confirmation(ticket, operation, a, c) => Confirmation(ticket, operation, EagerConfirm(a), EagerClosing(c))
    case DialogError(ticket, c) => DialogError(ticket, EagerClosing(c))
    case AppDied(bundle, c) => AppDied(bundle, EagerClosing(c))
    case RemoteDied(remote, c) => RemoteDied(remote, EagerClosing(c))
    case Anomaly(c) => Anomaly(EagerClosing(c))
    case ScreenConnected(screens, c) => ScreenConnected(screens, EagerClosing(c))
    case AncoChanged(isAncoKey, value, persist) => e
    case LoopCheck(now, delta, c) => LoopCheck(now, delta, EagerClosing(c))
  }

  function EagerRun(events: seq<Event>): seq<Event> {
    seq(|events|, i requires 0 <= i < |events| => EagerEvent(events[i]))
  }

  /** Equal in everything but the parameters. */
  ghost predicate Alike(s: State, t: State) {
    s.(params := t.params) == t
  }

  // ----- When a write is made -----

  /** From p to p' after saving or clearing for this value of isActive_: with anco awake the
      persistent write is made at once, otherwise it is left pending and nothing is written;
      the shared write is made in any case. A write that fails leaves the old value. */
  predicate WritesOrDefers(p: Params, p': Params, active: bool, a: ParamAnswers) {
    var l, l' := p.ledger, p'.ledger;
    && (if a.anco == "" || a.anco == "0"
        then p'.waiting == p.waiting && l'.persisted == (if a.persist then active else l.persisted)
             && l'.persistFailed == !a.persist
        else p'.waiting && l'.persisted == l.persisted && l'.persistFailed == l.persistFailed)
    && l'.shared == (if a.share then active else l.shared)
    && l'.sharedFailed == !a.share
  }

  lemma SaveWritesOrDefers(s: State, a: ParamAnswers)
    ensures WritesOrDefers(s.params, Save(s, a).params, s.session.active, a)
  {}

  /** The section that opens or closes a session writes for the new state of the session, in
      this way and no other. */
  lemma OpeningWrites(s: State, a: ConfirmAnswers)
    requires Inv(s) && s.session.status == Confirming
    ensures
      var s' := ConfirmBegin(s, a);
      if s'.session.active then WritesOrDefers(s.params, s'.params, true, a.params) else s'.params == s.params
  {
    RestrictKeepsSession(s.(session := s.session.(envOk := EnvSafe(s.env, a.sample))), a);
  }

  lemma ClosingWrites(s: State, m: Option<Message>, r: Restore, a: ParamAnswers)
    ensures WritesOrDefers(s.params, Conclude(s, m, r, a).params, false, a)
  {}

  // ----- One step -----

  lemma ConfirmPersists(s: State, a: ConfirmAnswers)
    requires Inv(s) && Persisted(s) && s.session.status == Confirming
    ensures Persisted(ConfirmBegin(s, a))
  {}

  lemma InterruptPersists(s: State, m: Message, c: Closing)
    requires Persisted(s)
    ensures Persisted(Interrupt(s, m, c))
  {
    ExitKeepsSession(s, c.exit);
  }

  lemma AppDiePersists(s: State, c: Closing)
    requires Persisted(s)
    ensures Persisted(AppDie(s, c))
  {}

  lemma BeginPersists(s: State, q: Request, d: Dialog, cleanup: Restore, a: ConfirmAnswers)
    requires Inv(s) && Persisted(s)
    ensures Persisted(BeginStep(s, q, d, cleanup, a))
  {
    if BeginCode(s, q) == ApiOk {
      var s0 := s.(idle := 0);
      AdmitEstablishes(s0, q, cleanup);
      ConfirmPersists(Admit(s0, q, cleanup), a);
    }
  }

  lemma EndPersists(s: State, token: Option<Remote>, uid: int, gate: Gate, c: Closing)
    requires Persisted(s)
    ensures Persisted(EndStep(s, token, uid, gate, c))
  {
    InterruptPersists(s.(idle := 0), OnEnd, c);
  }

  lemma ConcludePersists(s: State, m: Option<Message>, r: Restore, a: ParamAnswers)
    ensures Persisted(Conclude(s, m, r, a))
  {}

  lemma CallerPersists(s: State, e: Event)
    requires Inv(s) && Persisted(s) && FromCaller(e)
    ensures Persisted(Next(s, e))
  {
    match e
    case Begin(q, d, cleanup, a) => BeginPersists(s, q, d, cleanup, a);
    case End(token, uid, gate, c) => EndPersists(s, token, uid, gate, c);
    case Query(gate) =>
    case Confirmation(ticket, operation, a, c) =>
      if Effective(s, ticket, operation) {
        ConfirmPersists(s, a);
        ConcludePersists(s, Some(OnBegin(UserCancel)), c.cleanup, c.params);
      }
    case DialogError(ticket, c) => ConcludePersists(s, Some(OnBegin(SystemError)), c.cleanup, c.params);
  }

  lemma AnomalyPersists(s: State, c: Closing)
    requires Persisted(s)
    ensures Persisted(AnomalyStep(s, c))
  {
    InterruptPersists(s, OnInterrupted(EnvAnomaly), c);
  }

  lemma LoopPersists(s: State, now: nat, delta: nat, c: Closing)
    requires Persisted(s)
    ensures Persisted(LoopStep(s, now, delta, c))
  {
    InterruptPersists(s, OnInterrupted(Timeout), c);
  }

  lemma AncoPersists(s: State, isAncoKey: bool, value: string, persist: bool)
    requires Persisted(s)
    ensures Persisted(AncoStep(s, isAncoKey, value, persist))
  {}

  lemma NextPersists(s: State, e: Event)
    requires Inv(s) && Persisted(s)
    ensures Persisted(Next(s, e))
  {
    if FromCaller(e) {
      CallerPersists(s, e);
    } else {
      match e
      case AppDied(bundle, c) => AppDiePersists(s, c);
      case RemoteDied(remote, c) => AppDiePersists(s, c);
      case Anomaly(c) => AnomalyPersists(s, c);
      case ScreenConnected(screens, c) => AnomalyPersists(s, c);
      case AncoChanged(isAncoKey, value, persist) => AncoPersists(s, isAncoKey, value, persist);
      case LoopCheck(now, delta, c) => LoopPersists(s, now, delta, c);
    }
  }

  lemma ExitAlike(s: State, t: State, a: ExitAnswers)
    requires Alike(s, t)
    ensures Alike(ExitKiosk(s, a).0, ExitKiosk(t, a).0) && ExitKiosk(s, a).1 == ExitKiosk(t, a).1
    ensures ExitKiosk(t, a).0.params == t.params
  {}

  lemma EnterAlike(s: State, t: State, a: EnterAnswers)
    requires Alike(s, t)
    ensures Alike(EnterKiosk(s, a).0, EnterKiosk(t, a).0) && EnterKiosk(s, a).1 == EnterKiosk(t, a).1
    ensures EnterKiosk(t, a).0.params == t.params
  {}

  lemma ConcludeAlike(s: State, t: State, m: Option<Message>, r: Restore, a: ParamAnswers)
    requires Alike(s, t)
    ensures Alike(Conclude(s, m, r, a), Conclude(t, m, r, EAGER))
    ensures !t.params.waiting ==> Conclude(t, m, r, EAGER).params == Params(false, Ledger(false, false, false, false))
  {}

  lemma ConfirmAlike(s: State, t: State, a: ConfirmAnswers)
    requires Alike(s, t)
    ensures Alike(ConfirmBegin(s, a), ConfirmBegin(t, EagerConfirm(a)))
    ensures
      var p := ConfirmBegin(t, EagerConfirm(a)).params;
      p == t.params || (p == Params(t.params.waiting, Ledger(true, false, true, false))
                        && ConfirmBegin(t, EagerConfirm(a)).session.active)
  {
    var ok := EnvSafe(s.env, a.sample);
    var controls := ActivateResult(s.controls, a.activate, Blank).controls;
    EnterAlike(s.(session := s.session.(envOk := ok), controls := controls),
               t.(session := t.session.(envOk := ok), controls := controls), a.enter);
  }

  lemma BeginAlike(s: State, t: State, q: Request, d: Dialog, cleanup: Restore, a: ConfirmAnswers)
    requires Alike(s, t)
    ensures Alike(BeginStep(s, q, d, cleanup, a), BeginStep(t, q, d, cleanup, EagerConfirm(a)))
    ensures Eager(t) ==> Eager(BeginStep(t, q, d, cleanup, EagerConfirm(a)))
  {
    if BeginCode(s, q) == ApiOk {
      var s1, t1 := Admit(s.(idle := 0), q, cleanup), Admit(t.(idle := 0), q, cleanup);
      assert Alike(s1, t1);
      ConfirmAlike(s1, t1, a);
    }
  }

  lemma EndAlike(s: State, t: State, token: Option<Remote>, uid: int, gate: Gate, c: Closing)
    requires Alike(s, t)
    ensures Alike(EndStep(s, token, uid, gate, c), EndStep(t, token, uid, gate, EagerClosing(c)))
  {
    ExitAlike(s.(idle := 0), t.(idle := 0), c.exit);
  }

  lemma ConfirmationAlike(s: State, t: State, ticket: string, operation: Operation, a: ConfirmAnswers, c: Closing)
    requires Alike(s, t)
    ensures Alike(ConfirmationStep(s, ticket, operation, a, c),
                  ConfirmationStep(t, ticket, operation, EagerConfirm(a), EagerClosing(c)))
  {
    if Effective(s, ticket, operation) {
      if operation == Cancel {
        ConcludeAlike(s, t, Some(OnBegin(UserCancel)), c.cleanup, c.params);
      } else {
        ConfirmAlike(s, t, a);
      }
    }
  }

  lemma CallerAlike(s: State, t: State, e: Event)
    requires Alike(s, t) && FromCaller(e)
    ensures Alike(Next(s, e), Next(t, EagerEvent(e)))
  {
    match e
    case Begin(q, d, cleanup, a) => BeginAlike(s, t, q, d, cleanup, a);
    case End(token, uid, gate, c) => EndAlike(s, t, token, uid, gate, c);
    case Query(gate) =>
    case Confirmation(ticket, operation, a, c) => ConfirmationAlike(s, t, ticket, operation, a, c);
    case DialogError(ticket, c) => ConcludeAlike(s, t, Some(OnBegin(SystemError)), c.cleanup, c.params);
  }

  lemma InterruptAlike(s: State, t: State, m: Message, c: Closing)
    requires Alike(s, t)
    ensures Alike(Interrupt(s, m, c), Interrupt(t, m, EagerClosing(c)))
  {
    ExitAlike(s, t, c.exit);
    ConcludeAlike(ExitKiosk(s, c.exit).0, ExitKiosk(t, c.exit).0, Some(m), c.cleanup, c.params);
  }

  lemma AppDieAlike(s: State, t: State, c: Closing)
    requires Alike(s, t)
    ensures Alike(AppDie(s, c), AppDie(t, EagerClosing(c)))
  {
    ExitAlike(s, t, c.exit);
    ConcludeAlike(ExitKiosk(s, c.exit).0, ExitKiosk(t, c.exit).0, None, c.cleanup, c.params);
  }

  lemma AnomalyAlike(s: State, t: State, c: Closing)
    requires Alike(s, t)
    ensures Alike(AnomalyStep(s, c), AnomalyStep(t, EagerClosing(c)))
  {
    InterruptAlike(s, t, OnInterrupted(EnvAnomaly), c);
  }

  lemma LoopAlike(s: State, t: State, now: nat, delta: nat, c: Closing)
    requires Alike(s, t)
    ensures Alike(LoopStep(s, now, delta, c), LoopStep(t, now, delta, EagerClosing(c)))
  {
    InterruptAlike(s, t, OnInterrupted(Timeout), c);
  }

  lemma SystemAlike(s: State, t: State, e: Event)
    requires Alike(s, t) && !FromCaller(e)
    ensures Alike(Next(s, e), Next(t, EagerEvent(e)))
  {
    match e
    case AppDied(bundle, c) => AppDieAlike(s, t, c);
    case RemoteDied(remote, c) => AppDieAlike(s, t, c);
    case Anomaly(c) => AnomalyAlike(s, t, c);
    case ScreenConnected(screens, c) => AnomalyAlike(s, t, c);
    case AncoChanged(isAncoKey, value, persist) =>
    case LoopCheck(now, delta, c) => LoopAlike(s, t, now, delta, c);
  }

  /** The reference never waits and never fails a write. */
  ghost predicate Eager(t: State) {
    !t.params.waiting && !t.params.ledger.persistFailed && !t.params.ledger.sharedFailed
  }

  predicate Succeed(a: ParamAnswers) {
    a.persist && a.share
  }

  /** Anco is awake at every write the event may make. */
  predicate AwakeDuring(e: Event) {
    match e
    case Begin(q, d, cleanup, a) => AncoAwake(a.params.anco)
    case Query(gate) => true
    case Confirmation(ticket, operation, a, c) => AncoAwake(a.params.anco) && AncoAwake(c.params.anco)
    case AncoChanged(isAncoKey, value, persist) => true
    case _ => AncoAwake(e.closing.params.anco)
  }

  predicate SucceedDuring(e: Event) {
    match e
    case Begin(q, d, cleanup, a) => Succeed(a.params)
    case Query(gate) => true
    case Confirmation(ticket, operation, a, c) => Succeed(a.params) && Succeed(c.params)
    case AncoChanged(isAncoKey, value, persist) => true
    case _ => Succeed(e.closing.params)
  }

  /** Nothing becomes pending, and if the writes succeed, an eager state stays eager. */
  ghost predicate StaysPrompt(t: State, t': State, written: bool) {
    && (!t.params.waiting ==> !t'.params.waiting)
    && (written && Eager(t) ==> Eager(t'))
  }

  lemma ConcludeStaysPrompt(t: State, m: Option<Message>, r: Restore, a: ParamAnswers)
    requires AncoAwake(a.anco)
    ensures StaysPrompt(t, Conclude(t, m, r, a), Succeed(a))
  {
    ClosingWrites(t, m, r, a);
  }

  lemma ConfirmStaysPrompt(t: State, a: ConfirmAnswers)
    requires AncoAwake(a.params.anco)
    ensures StaysPrompt(t, ConfirmBegin(t, a), Succeed(a.params))
  {
    RestrictKeepsSession(t.(session := t.session.(envOk := EnvSafe(t.env, a.sample))), a);
  }

  lemma BeginStaysPrompt(t: State, q: Request, d: Dialog, cleanup: Restore, a: ConfirmAnswers)
    requires AncoAwake(a.params.anco)
    ensures StaysPrompt(t, BeginStep(t, q, d, cleanup, a), Succeed(a.params))
  {
    if BeginCode(t, q) == ApiOk {
      ConfirmStaysPrompt(Admit(t.(idle := 0), q, cleanup), a);
    }
  }

  lemma ConfirmationStaysPrompt(t: State, ticket: string, operation: Operation, a: ConfirmAnswers, c: Closing)
    requires AncoAwake(a.params.anco) && AncoAwake(c.params.anco)
    ensures StaysPrompt(t, ConfirmationStep(t, ticket, operation, a, c), Succeed(a.params) && Succeed(c.params))
  {
    ConfirmStaysPrompt(t, a);
    ConcludeStaysPrompt(t, Some(OnBegin(UserCancel)), c.cleanup, c.params);
  }

  lemma InterruptStaysPrompt(t: State, m: Message, c: Closing)
    requires AncoAwake(c.params.anco)
    ensures StaysPrompt(t, Interrupt(t, m, c), Succeed(c.params))
  {
    ExitKeepsSession(t, c.exit);
    ConcludeStaysPrompt(ExitKiosk(t, c.exit).0, Some(m), c.cleanup, c.params);
  }

  lemma EndStaysPrompt(t: State, token: Option<Remote>, uid: int, gate: Gate, c: Closing)
    requires AncoAwake(c.params.anco)
    ensures StaysPrompt(t, EndStep(t, token, uid, gate, c), Succeed(c.params))
  {
    InterruptStaysPrompt(t.(idle := 0), OnEnd, c);
  }

  lemma AppDieStaysPrompt(t: State, c: Closing)
    requires AncoAwake(c.params.anco)
    ensures StaysPrompt(t, AppDie(t, c), Succeed(c.params))
  {
    ExitKeepsSession(t, c.exit);
    ConcludeStaysPrompt(ExitKiosk(t, c.exit).0, None, c.cleanup, c.params);
  }

  lemma AnomalyStaysPrompt(t: State, c: Closing)
    requires AncoAwake(c.params.anco)
    ensures StaysPrompt(t, AnomalyStep(t, c), Succeed(c.params))
  {
    InterruptStaysPrompt(t, OnInterrupted(EnvAnomaly), c);
  }

  lemma LoopStaysPrompt(t: State, now: nat, delta: nat, c: Closing)
    requires AncoAwake(c.params.anco)
    ensures StaysPrompt(t, LoopStep(t, now, delta, c), Succeed(c.params))
  {
    InterruptStaysPrompt(t, OnInterrupted(Timeout), c);
  }

  lemma CallerStaysPrompt(t: State, e: Event)
    requires FromCaller(e) && AwakeDuring(e)
    ensures StaysPrompt(t, Next(t, e), SucceedDuring(e))
  {
    match e
    case Begin(q, d, cleanup, a) => BeginStaysPrompt(t, q, d, cleanup, a);
    case End(token, uid, gate, c) => EndStaysPrompt(t, token, uid, gate, c);
    case Query(gate) =>
    case Confirmation(ticket, operation, a, c) => ConfirmationStaysPrompt(t, ticket, operation, a, c);
    case DialogError(ticket, c) => ConcludeStaysPrompt(t, Some(OnBegin(SystemError)), c.cleanup, c.params);
  }

  lemma SystemStaysPrompt(t: State, e: Event)
    requires !FromCaller(e) && AwakeDuring(e)
    ensures StaysPrompt(t, Next(t, e), SucceedDuring(e))
  {
    match e
    case AppDied(bundle, c) => AppDieStaysPrompt(t, c);
    case RemoteDied(remote, c) => AppDieStaysPrompt(t, c);
    case Anomaly(c) => AnomalyStaysPrompt(t, c);
    case ScreenConnected(screens, c) => AnomalyStaysPrompt(t, c);
    case AncoChanged(isAncoKey, value, persist) =>
    case LoopCheck(now, delta, c) => LoopStaysPrompt(t, now, delta, c);
  }

  lemma NextStaysPrompt(t: State, e: Event)
    requires AwakeDuring(e)
    ensures StaysPrompt(t, Next(t, e), SucceedDuring(e))
  {
    if FromCaller(e) {
      CallerStaysPrompt(t, e);
    } else {
      SystemStaysPrompt(t, e);
    }
  }

  lemma EagerStays(t: State, e: Event)
    requires Eager(t)
    ensures Eager(Next(t, EagerEvent(e)))
  {
    NextStaysPrompt(t, EagerEvent(e));
  }

  /** While anco is awake at every write, nothing is ever pending, and the persisted flag
      equals isActive_ unless its last write failed. */
  lemma {:induction false} AwakeNeverDefers(s: State, events: seq<Event>)
    requires Starting(s)
    requires forall e :: e in events ==> AwakeDuring(e)
    ensures
      var s' := Run(s, events);
      !s'.params.waiting && (!s'.params.ledger.persistFailed ==> s'.params.ledger.persisted == s'.session.active)
    decreases |events|
  {
    PersistedOnRuns(s, events);
    if events != [] {
      AwakeNeverDefers(s, events[..|events| - 1]);
      NextStaysPrompt(Run(s, events[..|events| - 1]), events[|events| - 1]);
    }
  }

  // ----- Runs -----

  lemma {:induction false} PersistedOnRuns(s: State, events: seq<Event>)
    requires Starting(s)
    ensures Persisted(Run(s, events))
    decreases |events|
  {
    if events != [] {
      InvOnRuns(s, events[..|events| - 1]);
      PersistedOnRuns(s, events[..|events| - 1]);
      NextPersists(Run(s, events[..|events| - 1]), events[|events| - 1]);
    }
  }

  lemma {:induction false} RunsAlike(s: State, events: seq<Event>)
    requires Eager(s)
    ensures Alike(Run(s, events), Run(s, EagerRun(events)))
    ensures Eager(Run(s, EagerRun(events)))
    decreases |events|
  {
    var eager := EagerRun(events);
    if events != [] {
      var front, e := events[..|events| - 1], events[|events| - 1];
      RunsAlike(s, front);
      assert eager[..|events| - 1] == EagerRun(front) && eager[|events| - 1] == EagerEvent(e);
      EagerStays(Run(s, EagerRun(front)), e);
      if FromCaller(e) {
        CallerAlike(Run(s, front), Run(s, EagerRun(front)), e);
      } else {
        SystemAlike(Run(s, front), Run(s, EagerRun(front)), e);
      }
    }
  }

  /** Deferring refines writing at once: the two services run alike, and whenever no write
      is pending or failed, the deferred flag is what the eager service has written,
      which is always isActive_. The shared flag is never deferred. */
  lemma DeferredRefinesEager(s: State, events: seq<Event>)
    requires Starting(s) && Eager(s)
    ensures
      var deferred, eager := Run(s, events), Run(s, EagerRun(events));
      && deferred.session == eager.session
      && eager.params.ledger.persisted == eager.params.ledger.shared == eager.session.active
      && (!deferred.params.waiting && !deferred.params.ledger.persistFailed ==>
            deferred.params.ledger.persisted == eager.params.ledger.persisted)
      && (!deferred.params.ledger.sharedFailed ==>
            deferred.params.ledger.shared == eager.params.ledger.shared)
  {
    PersistedOnRuns(s, events);
    PersistedOnRuns(s, EagerRun(events));
    RunsAlike(s, events);
  }

  /** After any run, the notice that anco is awake leaves nothing pending; unless its write,
      or the last one before it, failed, the deferred flag then is what the eager service
      holds. */
  lemma WakeUpSettles(s: State, events: seq<Event>, persist: bool)
    requires Starting(s) && Eager(s)
    ensures
      var before, eager := Run(s, events), Run(s, EagerRun(events));
      var after := Next(before, AncoChanged(true, "0", persist));
      && !after.params.waiting
      && after.session == before.session
      && ((if before.params.waiting then persist else !before.params.ledger.persistFailed) ==>
            after.params.ledger.persisted == eager.params.ledger.persisted == after.session.active)
      && (forall isAncoKey, value :: !(isAncoKey && value == "0") ==>
            Next(before, AncoChanged(isAncoKey, value, persist)) == before)
  {
    DeferredRefinesEager(s, events);
  }
}
