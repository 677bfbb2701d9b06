/**
  The callback protocol: what each accepted session's own callback object is told, over
  every run.
*/
module CallbackProtocol {
  import opened Types
  import opened Environment
  import opened ProcessControl
  import opened Callbacks
  import opened Session
  import opened SessionInvariant

  /** The messages sent while session k was current, in order. */
  function Word(log: seq<Delivery>, k: nat): seq<Message>
    decreases |log|
  {
    if log == [] then []
    else
      var last := log[|log| - 1];
      Word(log[..|log| - 1], k) + (if last.session == k then [last.message] else [])
  }

  predicate IsFinal(m: Message) {
    m == OnEnd || m == OnInterrupted(Timeout) || m == OnInterrupted(EnvAnomaly)
  }

  /** Nothing; one OnBegin; or OnBegin(Success) and then one final message. */
  predicate Legal(w: seq<Message>) {
    || w == []
    || (|w| == 1 && w[0].OnBegin?)
    || (|w| == 2 && w[0] == OnBegin(Success) && IsFinal(w[1]))
  }

  /** Every message went to the callback object enrolled for the session it belongs to. */
  ghost predicate Addressed(r: Registry) {
    forall i :: 0 <= i < |r.log| ==>
      && 1 <= r.log[i].session <= |r.enrolled|
      && r.log[i].to == r.enrolled[r.log[i].session - 1].callback
  }

  ghost predicate Protocol(r: Registry, status: Status) {
    && Addressed(r)
    && (forall k: nat :: Legal(Word(r.log, k)))
    && (forall k: nat :: k > |r.enrolled| ==> Word(r.log, k) == [])
    && (status == Confirming ==> Word(r.log, |r.enrolled|) == [])
    && (status == Active ==> Word(r.log, |r.enrolled|) == [OnBegin(Success)])
  }

  // ----- Steps of the table -----

  /** What a delivery in a state with a session does to the words. */
  lemma DeliveryExtends(s: State, m: Message)
    requires LiveShape(s) && Addressed(s.registry)
    ensures
      var r := Notify(s, m).registry;
      && r.enrolled == s.registry.enrolled
      && Addressed(r)
      && forall k: nat :: Word(r.log, k) == Word(s.registry.log, k) + (if k == |r.enrolled| then [m] else [])
  {}

  lemma FirstMessage(s: State, code: Code)
    requires LiveShape(s) && Protocol(s.registry, Confirming)
    ensures Protocol(Notify(s, OnBegin(code)).registry, if code == Success then Active else Idle)
    ensures Word(Notify(s, OnBegin(code)).registry.log, |s.registry.enrolled|) == [OnBegin(code)]
  {}

  lemma FinalMessage(s: State, m: Message)
    requires LiveShape(s) && Protocol(s.registry, Active) && IsFinal(m)
    ensures Protocol(Notify(s, m).registry, Idle)
    ensures Word(Notify(s, m).registry.log, |s.registry.enrolled|) == [OnBegin(Success), m]
  {}

  lemma SameHistory(r: Registry, r': Registry, status: Status, status': Status)
    requires Protocol(r, status) && r'.enrolled == r.enrolled && r'.log == r.log
    requires status' == status || status' == Idle
    ensures Protocol(r', status')
  {}

  lemma NewSession(r: Registry, q: Request)
    requires Protocol(r, Idle) && q.token.Some? && q.callback.Some?
    ensures Protocol(Enrol(r, q.token, q.callback), Confirming)
  {}

  // ----- Steps of the service -----

  ghost predicate Follows(s: State) {
    Inv(s) && Protocol(s.registry, s.session.status)
  }

  lemma ConcludeFollows(s: State, m: Option<Message>, r: Restore, a: ParamAnswers)
    requires m.Some? ==> Protocol(Notify(s, m.value).registry, Idle)
    requires m.None? ==> Protocol(s.registry, Idle)
    ensures Protocol(Conclude(s, m, r, a).registry, Idle)
    ensures Conclude(s, m, r, a).registry.log == (if m.Some? then Notify(s, m.value) else s).registry.log
  {}

  lemma RefuseFollows(s: State, code: Code, r: Restore)
    requires LiveShape(s) && Protocol(s.registry, Confirming) && code != Success
    ensures Protocol(Refuse(s, code, r).registry, Idle)
    ensures Word(Refuse(s, code, r).registry.log, |s.registry.enrolled|) == [OnBegin(code)]
  {}

  /** Success exactly when the session starts, ENV_ANOMALY exactly when the environment
      check refused it. */
  function ConfirmCode(s: State, a: ConfirmAnswers): Code {
    if ConfirmBegin(s, a).session.active then Success
    else if EnvSafe(s.env, a.sample) then SystemError
    else EnvAnomaly
  }

  /** A confirmation always answers, with one OnBegin. */
  lemma ConfirmFollows(s: State, a: ConfirmAnswers)
    requires Follows(s) && s.session.status == Confirming
    ensures
      var s' := ConfirmBegin(s, a);
      && Protocol(s'.registry, s'.session.status)
      && |s'.registry.enrolled| == |s.registry.enrolled|
      && Word(s'.registry.log, |s.registry.enrolled|) == [OnBegin(ConfirmCode(s, a))]
  {
    var s1 := s.(session := s.session.(envOk := EnvSafe(s.env, a.sample)));
    if !s1.session.envOk {
      RefuseFollows(s1, EnvAnomaly, a.cleanup);
    } else {
      RestrictKeepsSession(s1, a);
      var (s2, restricted) := Restrict(s1, a);
      if !restricted {
        RefuseFollows(s2, SystemError, a.cleanup);
      } else {
        FirstMessage(Save(Open(s2, a.clock), a.params), Success);
      }
    }
  }

  lemma SupersedeFollows(s: State, q: Request, cleanup: Restore)
    requires Follows(s) && !s.session.active
    requires q.apps != [] && q.token.Some? && q.callback.Some?
    ensures
      var s' := Admit(s, q, cleanup);
      && Protocol(s'.registry, Confirming)
      && |s'.registry.enrolled| == |s.registry.enrolled| + 1
      && (s.session.status == Confirming ==>
            Word(s'.registry.log, |s.registry.enrolled|) == [OnBegin(SystemError)])
  {
    var s1 := Supersede(s);
    if s.session.status == Confirming {
      FirstMessage(s, SystemError);
    }
    SameHistory(s1.registry, Cleanup(s1, cleanup).registry, Idle, Idle);
    NewSession(Cleanup(s1, cleanup).registry, q);
  }

  lemma InterruptFollows(s: State, m: Message, c: Closing)
    requires Follows(s) && s.session.active && IsFinal(m)
    ensures Protocol(Interrupt(s, m, c).registry, Interrupt(s, m, c).session.status)
  {
    ExitKeepsSession(s, c.exit);
    var (s1, exited) := ExitKiosk(s, c.exit);
    if exited {
      FinalMessage(s1, m);
      ConcludeFollows(s1, Some(m), c.cleanup, c.params);
    }
  }

  lemma AppDieFollows(s: State, c: Closing)
    requires Follows(s)
    ensures Protocol(AppDie(s, c).registry, Idle)
    ensures AppDie(s, c).registry.log == s.registry.log
  {
    ExitKeepsSession(s, c.exit);
    SameHistory(s.registry, s.registry, s.session.status, Idle);
    ConcludeFollows(ExitKiosk(s, c.exit).0, None, c.cleanup, c.params);
  }

  lemma AnswerFollows(s: State, code: Code, c: Closing)
    requires Follows(s) && !s.session.active && code != Success
    ensures
      var s' := Conclude(s, Some(OnBegin(code)), c.cleanup, c.params);
      && Protocol(s'.registry, Idle)
      && (s.session.status == Confirming ==> Word(s'.registry.log, |s.registry.enrolled|) == [OnBegin(code)])
      && (s.session.status == Idle ==> s'.registry.log == s.registry.log)
  {
    if s.session.status == Confirming {
      FirstMessage(s, code);
    }
    ConcludeFollows(s, Some(OnBegin(code)), c.cleanup, c.params);
  }

  lemma BeginFollows(s: State, q: Request, d: Dialog, cleanup: Restore, a: ConfirmAnswers)
    requires Follows(s)
    ensures Protocol(BeginStep(s, q, d, cleanup, a).registry, BeginStep(s, q, d, cleanup, a).session.status)
  {
    if BeginCode(s, q) == ApiOk {
      var s0 := s.(idle := 0);
      SupersedeFollows(s0, q, cleanup);
      AdmitEstablishes(s0, q, cleanup);
      ConfirmFollows(Admit(s0, q, cleanup), a);
    }
  }

  lemma ConfirmationFollows(s: State, ticket: string, operation: Operation, a: ConfirmAnswers, c: Closing)
    requires Follows(s)
    ensures
      var s' := ConfirmationStep(s, ticket, operation, a, c);
      Protocol(s'.registry, s'.session.status)
  {
    if Effective(s, ticket, operation) {
      AnswerFollows(s, UserCancel, c);
      ConfirmFollows(s, a);
    }
  }

  lemma EndFollows(s: State, token: Option<Remote>, uid: int, gate: Gate, c: Closing)
    requires Follows(s)
    ensures
      var s' := EndStep(s, token, uid, gate, c);
      Protocol(s'.registry, s'.session.status)
  {
    if s.session.active {
      InterruptFollows(s.(idle := 0), OnEnd, c);
    }
  }

  lemma DialogErrorFollows(s: State, ticket: string, c: Closing)
    requires Follows(s)
    ensures Protocol(DialogErrorStep(s, ticket, c).registry, DialogErrorStep(s, ticket, c).session.status)
  {
    if !s.session.active {
      AnswerFollows(s, SystemError, c);
    }
  }

  lemma CallerFollows(s: State, e: Event)
    requires Follows(s) && FromCaller(e)
    ensures Protocol(Next(s, e).registry, Next(s, e).session.status)
  {
    match e
    case Begin(q, d, cleanup, a) => BeginFollows(s, q, d, cleanup, a);
    case End(token, uid, gate, c) => EndFollows(s, token, uid, gate, c);
    case Query(gate) =>
    case Confirmation(ticket, operation, a, c) => ConfirmationFollows(s, ticket, operation, a, c);
    case DialogError(ticket, c) => DialogErrorFollows(s, ticket, c);
  }

  lemma AnomalyFollows(s: State, c: Closing)
    requires Follows(s)
    ensures Protocol(AnomalyStep(s, c).registry, AnomalyStep(s, c).session.status)
  {
    if s.session.active {
      InterruptFollows(s, OnInterrupted(EnvAnomaly), c);
    }
  }

  lemma LoopFollows(s: State, now: nat, delta: nat, c: Closing)
    requires Follows(s)
    ensures Protocol(LoopStep(s, now, delta, c).registry, LoopStep(s, now, delta, c).session.status)
  {
    if s.session.active {
      InterruptFollows(s, OnInterrupted(Timeout), c);
    }
  }

  lemma DeathFollows(s: State, c: Closing)
    requires Follows(s)
    ensures Protocol(AppDie(s, c).registry, AppDie(s, c).session.status)
  {
    AppDieFollows(s, c);
    AppDieEstablishes(s, c);
  }

  lemma SystemFollows(s: State, e: Event)
    requires Follows(s) && !FromCaller(e)
    ensures Protocol(Next(s, e).registry, Next(s, e).session.status)
  {
    match e
    case AppDied(bundle, c) => DeathFollows(s, c);
    case RemoteDied(remote, c) => DeathFollows(s, c);
    case Anomaly(c) => AnomalyFollows(s, c);
    case ScreenConnected(screens, c) => AnomalyFollows(s, c);
    case AncoChanged(isAncoKey, value, persist) => AncoChangesParams(s, e);
    case LoopCheck(now, delta, c) => LoopFollows(s, now, delta, c);
  }

  lemma NextFollows(s: State, e: Event)
    requires Follows(s)
    ensures Protocol(Next(s, e).registry, Next(s, e).session.status)
  {
    if FromCaller(e) {
      CallerFollows(s, e);
    } else {
      SystemFollows(s, e);
    }
  }

  // ----- Theorems -----

  /** Over every run, each accepted session's own callback object is told a prefix of
      OnBegin(not Success), or of OnBegin(Success) and then OnEnd or OnInterrupted;
      nothing while it waits for its confirmation; exactly OnBegin(Success) while it
      runs. No message of one session goes to another session's object. */
  lemma {:induction false} ProtocolOnRuns(s: State, events: seq<Event>)
    requires Starting(s)
    ensures Follows(Run(s, events))
    decreases |events|
  {
    InvOnRuns(s, events);
    if events != [] {
      var before := Run(s, events[..|events| - 1]);
      ProtocolOnRuns(s, events[..|events| - 1]);
      NextFollows(before, events[|events| - 1]);
    }
  }

  /** What a waiting session is told by the event that ends its wait. */
  function Answer(s: State, e: Event): seq<Message> {
    match e
    case Begin(q, d, cleanup, a) => [OnBegin(SystemError)]
    case Confirmation(ticket, operation, a, c) =>
      [OnBegin(if operation == Cancel then UserCancel else ConfirmCode(s, a))]
    case DialogError(ticket, c) => [OnBegin(SystemError)]
    case _ => []
  }

  /** From s to s' the session stays in its wait and has been told nothing, or its wait
      ended and it has been told the answer and nothing else. */
  ghost predicate WaitsOrEnds(s: State, s': State, answer: seq<Message>) {
    var n := |s.registry.enrolled|;
    Word(s'.registry.log, n)
    == if s'.session == s.session && |s'.registry.enrolled| == n then [] else answer
  }

  /** The event ends the wait of s with its answer, or leaves the session waiting. */
  ghost predicate Answered(s: State, e: Event) {
    var s' := Next(s, e);
    && WaitsOrEnds(s, s', Answer(s, e))
    && (Answer(s, e) == [] && s'.session != s.session ==>
          e.RemoteDied? && e.remote == s.session.callback && s'.session == NO_SESSION)
  }

  lemma LeavingByConfirm(s: State, a: ConfirmAnswers)
    requires Follows(s) && s.session.status == Confirming
    ensures WaitsOrEnds(s, ConfirmBegin(s, a), [OnBegin(ConfirmCode(s, a))])
  {
    ConfirmFollows(s, a);
    ConfirmKeepsInv(s, a);
  }

  lemma LeavingByCancel(s: State, c: Closing)
    requires Follows(s) && s.session.status == Confirming
    ensures WaitsOrEnds(s, s, [OnBegin(UserCancel)])
    ensures WaitsOrEnds(s, Conclude(s, Some(OnBegin(UserCancel)), c.cleanup, c.params), [OnBegin(UserCancel)])
  {
    AnswerFollows(s, UserCancel, c);
  }

  lemma LeavingByConfirmation(s: State, ticket: string, operation: Operation, a: ConfirmAnswers, c: Closing)
    requires Follows(s) && s.session.status == Confirming
    ensures WaitsOrEnds(s, ConfirmationStep(s, ticket, operation, a, c),
                        [OnBegin(if operation == Cancel then UserCancel else ConfirmCode(s, a))])
  {
    if Effective(s, ticket, operation) {
      if operation == Cancel {
        LeavingByCancel(s, c);
      } else {
        LeavingByConfirm(s, a);
      }
    }
  }

  lemma LeavingByBegin(s: State, q: Request, d: Dialog, cleanup: Restore, a: ConfirmAnswers)
    requires Follows(s) && s.session.status == Confirming
    ensures WaitsOrEnds(s, BeginStep(s, q, d, cleanup, a), [OnBegin(SystemError)])
  {
    if BeginCode(s, q) == ApiOk {
      var s0 := s.(idle := 0);
      SupersedeFollows(s0, q, cleanup);
      AdmitEstablishes(s0, q, cleanup);
      var s1 := Admit(s0, q, cleanup);
      ConfirmLeavesOthers(s1, a, |s.registry.enrolled|);
      ConfirmAppends(s1, a);
    }
  }

  lemma LeavingByDialogError(s: State, ticket: string, c: Closing)
    requires Follows(s) && s.session.status == Confirming
    ensures WaitsOrEnds(s, DialogErrorStep(s, ticket, c), [OnBegin(SystemError)])
  {
    AnswerFollows(s, SystemError, c);
  }

  lemma LeavingByDeath(s: State, remote: Option<Remote>, c: Closing)
    requires Follows(s) && s.session.status == Confirming
    ensures
      var s' := RemoteDiedStep(s, remote, c);
      && WaitsOrEnds(s, s', [])
      && (s'.session != s.session ==> remote == s.session.callback && s'.session == NO_SESSION)
  {
    AppDieFollows(s, c);
    AppDieEstablishes(s, c);
  }

  /** A session that stops waiting for its confirmation has been told exactly one OnBegin
      with the code of the event that ended the wait, unless its callback object died:
      that is the only silent way out. */
  lemma LeavingConfirming(s: State, e: Event)
    requires Follows(s) && s.session.status == Confirming
    ensures Answered(s, e)
  {
    match e
    case Begin(q, d, cleanup, a) => LeavingByBegin(s, q, d, cleanup, a);
    case Confirmation(ticket, operation, a, c) => LeavingByConfirmation(s, ticket, operation, a, c);
    case DialogError(ticket, c) => LeavingByDialogError(s, ticket, c);
    case RemoteDied(remote, c) => LeavingByDeath(s, remote, c);
    case _ => WaitingIgnores(s, e);
  }

  /** What a running session is told by the event that closes it. */
  function Farewell(e: Event): seq<Message> {
    match e
    case End(token, uid, gate, c) => [OnEnd]
    case Anomaly(c) => [OnInterrupted(EnvAnomaly)]
    case ScreenConnected(screens, c) => [OnInterrupted(EnvAnomaly)]
    case LoopCheck(now, delta, c) => [OnInterrupted(Timeout)]
    case _ => []
  }

  /** In s' the session that ran in s still runs and has been told nothing more, or it was
      closed with this farewell. */
  ghost predicate RunsOrCloses(s: State, s': State, farewell: seq<Message>) {
    Word(s'.registry.log, |s.registry.enrolled|)
    == [OnBegin(Success)] + (if s'.session.active then [] else farewell)
  }

  lemma InterruptTells(s: State, m: Message, c: Closing)
    requires Follows(s) && s.session.active && IsFinal(m)
    ensures RunsOrCloses(s, Interrupt(s, m, c), [m])
  {}

  lemma EndTells(s: State, token: Option<Remote>, uid: int, gate: Gate, c: Closing)
    requires Follows(s) && s.session.active
    ensures RunsOrCloses(s, EndStep(s, token, uid, gate, c), [OnEnd])
  {
    InterruptTells(s.(idle := 0), OnEnd, c);
  }

  lemma DeathTells(s: State, c: Closing)
    requires Follows(s) && s.session.active
    ensures RunsOrCloses(s, s, []) && RunsOrCloses(s, AppDie(s, c), [])
  {
    AppDieFollows(s, c);
  }

  lemma AnomalyTells(s: State, c: Closing)
    requires Follows(s) && s.session.active
    ensures RunsOrCloses(s, s, [OnInterrupted(EnvAnomaly)])
    ensures RunsOrCloses(s, AnomalyStep(s, c), [OnInterrupted(EnvAnomaly)])
  {
    InterruptTells(s, OnInterrupted(EnvAnomaly), c);
  }

  lemma LoopTells(s: State, now: nat, delta: nat, c: Closing)
    requires Follows(s) && s.session.active
    ensures RunsOrCloses(s, LoopStep(s, now, delta, c), [OnInterrupted(Timeout)])
  {
    InterruptTells(s, OnInterrupted(Timeout), c);
  }

  lemma SystemTells(s: State, e: Event)
    requires Follows(s) && s.session.active && !FromCaller(e)
    ensures RunsOrCloses(s, Next(s, e), Farewell(e))
  {
    match e
    case AppDied(bundle, c) => DeathTells(s, c);
    case RemoteDied(remote, c) => DeathTells(s, c);
    case Anomaly(c) => AnomalyTells(s, c);
    case ScreenConnected(screens, c) => AnomalyTells(s, c);
    case AncoChanged(isAncoKey, value, persist) => AncoChangesParams(s, e);
    case LoopCheck(now, delta, c) => LoopTells(s, now, delta, c);
  }

  /** A running session is told nothing until it is closed, and then the message of the
      event that closed it; the death of the caller closes it silently. */
  lemma LeavingActive(s: State, e: Event)
    requires Follows(s) && s.session.active
    ensures RunsOrCloses(s, Next(s, e), Farewell(e))
  {
    if !FromCaller(e) {
      SystemTells(s, e);
    } else if e.End? {
      EndTells(s, e.token, e.uid, e.gate, e.closing);
    } else {
      ActiveIgnores(s, e);
    }
  }

  // ----- Other sessions -----

  lemma RefuseLeavesOthers(s: State, code: Code, r: Restore, k: nat)
    requires LiveShape(s) && Addressed(s.registry) && k != |s.registry.enrolled|
    ensures Word(Refuse(s, code, r).registry.log, k) == Word(s.registry.log, k)
  {
    DeliveryExtends(s, OnBegin(code));
  }

  /** A confirmation adds to no other session's word. */
  lemma ConfirmLeavesOthers(s: State, a: ConfirmAnswers, k: nat)
    requires Follows(s) && s.session.status == Confirming && k != |s.registry.enrolled|
    ensures Word(ConfirmBegin(s, a).registry.log, k) == Word(s.registry.log, k)
  {
    var s1 := s.(session := s.session.(envOk := EnvSafe(s.env, a.sample)));
    RestrictKeepsSession(s1, a);
    var (s2, restricted) := Restrict(s1, a);
    if !s1.session.envOk {
      RefuseLeavesOthers(s1, EnvAnomaly, a.cleanup, k);
    } else if !restricted {
      RefuseLeavesOthers(s2, SystemError, a.cleanup, k);
    } else {
      DeliveryExtends(Save(Open(s2, a.clock), a.params), OnBegin(Success));
    }
  }
}
