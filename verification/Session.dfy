/**
  The assessment session protocol as a transition system on values.

  Each event is one critical section of the service: an IPC request, a dialog answer,
  a system event, a death notice, a parameter change, or one check of the timer loop.
  An event carries its arguments and whatever the outside world answers during the
  section, so Next is a function and a run is a sequence of events.
*/
module Session {
  import opened Types
  import opened Environment
  import opened ProcessControl
  import opened Callbacks

  // ----- State -----

  /** The power running lock: no object, or an object that is held or released. */
  datatype Locker = NoLock | Lock(held: bool)

  /** The fields of the service that belong to one session. */
  datatype Sess = Sess(
    status: Status,
    active: bool,
    token: Option<Remote>,
    callback: Option<Remote>,
    duration: nat,
    apps: seq<string>,
    bundle: string,
    endpoint: nat,
    uid: int,
    envOk: bool,
    locker: Locker
  )

  const NO_SESSION := Sess(Idle, false, None, None, 0, [], "", 0, 0, false, NoLock)

  /** The device as this service left it: kiosk mode, the three power filters, the
      kiosk whitelist, and the input method read when the list was last added. */
  datatype Device = Device(
    kiosk: bool,
    suspend: bool,
    lid: bool,
    powerKey: bool,
    whitelist: set<string>,
    entryIme: string
  )

  /** The persistent and the shared parameter, and whether their last write failed. */
  datatype Ledger = Ledger(persisted: bool, persistFailed: bool, shared: bool, sharedFailed: bool)

  /** waiting is isWaittingAncoActive_: a persistent write is deferred until anco wakes. */
  datatype Params = Params(waiting: bool, ledger: Ledger)

  datatype State = State(
    session: Sess,
    ticket: string,
    idle: nat,
    running: bool,
    registry: Registry,
    controls: Controls,
    device: Device,
    params: Params,
    env: EnvConfig
  )

  /** The service after Init: nothing registered, parameters reset to false, any device. */
  ghost predicate Starting(s: State) {
    && s.session == NO_SESSION
    && s.ticket == ""
    && s.idle == 0
    && s.running
    && s.registry == Registry(map[], [], [])
    && (exists library :: s.controls == Initial(library))
    && !s.params.waiting
    && (s.params.ledger.persisted ==> s.params.ledger.persistFailed)
    && (s.params.ledger.shared ==> s.params.ledger.sharedFailed)
  }

  // ----- Answers of the outside world -----

  datatype Gate = Gate(supported: bool, permitted: bool)

  datatype PowerAnswers = PowerAnswers(suspend: bool, lid: bool, powerKey: bool)

  datatype EnterAnswers = EnterAnswers(
    restrictAnco: bool,
    lockCreated: bool,
    lockUsed: bool,
    power: PowerAnswers,
    ime: string,
    addList: bool,
    enterKiosk: bool
  )

  /** The code of ExitKioskMode: success, one of the two codes that mean there is no
      kiosk mode to leave, or any other error. */
  datatype ExitCode = Left | Benign | Failed

  datatype ExitAnswers = ExitAnswers(
    power: PowerAnswers,
    first: ExitCode,
    second: ExitCode,
    third: ExitCode,
    ime: string,
    deleteList: bool
  )

  datatype ParamAnswers = ParamAnswers(anco: string, persist: bool, awake: bool, share: bool)

  datatype ConfirmAnswers = ConfirmAnswers(
    sample: Sample,
    activate: ActivateAnswers,
    enter: EnterAnswers,
    clock: nat,
    params: ParamAnswers,
    cleanup: Restore
  )

  /** The answers met while a session is closed. */
  datatype Closing = Closing(exit: ExitAnswers, cleanup: Restore, params: ParamAnswers)

  datatype Dialog = Dialog(available: bool, shown: bool)

  datatype Request = Request(
    token: Option<Remote>,
    duration: nat,
    apps: seq<string>,
    callback: Option<Remote>,
    uid: int,
    gate: Gate,
    ticket: string
  )

  datatype Operation = Cancel | Confirm | OtherOperation

  datatype Event =
    | Begin(request: Request, dialog: Dialog, cleanup: Restore, confirm: ConfirmAnswers)
    | End(token: Option<Remote>, uid: int, gate: Gate, closing: Closing)
    | Query(gate: Gate)
    | Confirmation(ticket: string, operation: Operation, confirm: ConfirmAnswers, closing: Closing)
    | DialogError(ticket: string, closing: Closing)
    | AppDied(bundle: string, closing: Closing)
    | RemoteDied(remote: Option<Remote>, closing: Closing)
    | Anomaly(closing: Closing)
    | ScreenConnected(screens: Option<seq<Screen>>, closing: Closing)
    | AncoChanged(isAncoKey: bool, value: string, persist: bool)
    | LoopCheck(now: nat, delta: nat, closing: Closing)

  // ----- Parameters -----

  predicate AncoAwake(anco: string) {
    anco == "" || anco == "0"
  }

  function WritePersisted(l: Ledger, active: bool, ok: bool): Ledger {
    Ledger(if ok then active else l.persisted, !ok, l.shared, l.sharedFailed)
  }

  function WriteShared(l: Ledger, value: bool, ok: bool): Ledger {
    Ledger(l.persisted, l.persistFailed, if ok then value else l.shared, !ok)
  }

  /** UpdateState: write through when anco is awake, otherwise defer. */
  function UpdateParams(p: Params, active: bool, a: ParamAnswers): Params {
    if AncoAwake(a.anco) then Params(p.waiting, WritePersisted(p.ledger, active, a.persist))
    else Params(true, p.ledger)
  }

  function ShareParams(p: Params, value: bool, ok: bool): Params {
    Params(p.waiting, WriteShared(p.ledger, value, ok))
  }

  function Save(s: State, a: ParamAnswers): State {
    s.(params := ShareParams(UpdateParams(s.params, s.session.active, a), s.session.active, a.share))
  }

  function Clear(s: State, a: ParamAnswers): State {
    s.(params := ShareParams(UpdateParams(s.params, s.session.active, a), false, a.share))
  }

  // ----- Kiosk mode and power filters -----

  const PRESET_KIOSK_BUNDLE_LIST := [
    "com.ohos.calllogability",
    "com.ohos.contacts",
    "com.ohos.contactsdataability",
    "com.ohos.formrenderservice"
  ]

  /** Where the first '/' at or after pos is, or the end of the string. */
  function SlashAt(ime: string, pos: nat): (r: nat)
    requires pos <= |ime|
    ensures pos <= r <= |ime|
    ensures '/' !in ime[pos..r]
    ensures r < |ime| ==> ime[r] == '/'
    decreases |ime| - pos
  {
    if pos == |ime| || ime[pos] == '/' then pos else SlashAt(ime, pos + 1)
  }

  /** The part of the default input method before the first '/'. */
  function ImeBundle(ime: string): (name: string)
    ensures name <= ime && '/' !in name
    ensures name == ime || ime[|name|] == '/'
  {
    ime[..SlashAt(ime, 0)]
  }

  function FinalAppList(apps: seq<string>, ime: string): seq<string> {
    apps + PRESET_KIOSK_BUNDLE_LIST + (if ime == "" then [] else [ImeBundle(ime)])
  }

  function Elements(list: seq<string>): set<string> {
    set x | x in list
  }

  /** The three filters are set one after the other; the first failure stops. */
  function RestrictScreenOff(d: Device, enable: bool, a: PowerAnswers): (Device, bool) {
    if !a.suspend then (d, false)
    else if !a.lid then (Device(d.kiosk, enable, d.lid, d.powerKey, d.whitelist, d.entryIme), false)
    else if !a.powerKey then (Device(d.kiosk, enable, enable, d.powerKey, d.whitelist, d.entryIme), false)
    else (Device(d.kiosk, enable, enable, enable, d.whitelist, d.entryIme), true)
  }

  function HoldScreen(a: EnterAnswers): Locker {
    if a.lockCreated then Lock(a.lockUsed) else NoLock
  }

  function AddToWhitelist(d: Device, list: seq<string>, ime: string): Device {
    Device(d.kiosk, d.suspend, d.lid, d.powerKey, d.whitelist + Elements(list), ime)
  }

  function RemoveFromWhitelist(d: Device, list: seq<string>): Device {
    Device(d.kiosk, d.suspend, d.lid, d.powerKey, d.whitelist - Elements(list), d.entryIme)
  }

  function WithKiosk(d: Device, on: bool): Device {
    Device(on, d.suspend, d.lid, d.powerKey, d.whitelist, d.entryIme)
  }

  function EnterKiosk(s: State, a: EnterAnswers): (State, bool) {
    if !Passes(s.env.loader.restrictAnco, a.restrictAnco) then (s, false)
    else
      var (d, restricted) := RestrictScreenOff(s.device, true, a.power);
      var s1 := s.(session := s.session.(locker := HoldScreen(a)), device := d);
      if HoldScreen(a) != Lock(true) || !restricted then (s1, false)
      else if !a.addList then (s1, false)
      else
        var d2 := AddToWhitelist(d, FinalAppList(s.session.apps, a.ime), a.ime);
        if !a.enterKiosk then (s1.(device := d2), false)
        else (s1.(device := WithKiosk(d2, true)), true)
  }

  /** At most three attempts; the first that does not fail ends them. */
  predicate Exits(a: ExitAnswers) {
    a.first != Failed || a.second != Failed || a.third != Failed
  }

  function Released(l: Locker): Locker {
    if l.NoLock? then NoLock else Lock(false)
  }

  function ExitKiosk(s: State, a: ExitAnswers): (State, bool) {
    var (d, restored) := RestrictScreenOff(s.device, false, a.power);
    var s1 := s.(session := s.session.(locker := Released(s.session.locker)), device := d);
    if !restored || !Exits(a) then (s1, false)
    else if !a.deleteList then (s1.(device := WithKiosk(d, false)), true)
    else (s1.(device := RemoveFromWhitelist(WithKiosk(d, false), FinalAppList(s.session.apps, a.ime))), true)
  }

  // ----- Opening a session -----

  function Notify(s: State, m: Message): State {
    s.(registry := Deliver(s.registry, s.session.token, m))
  }

  /** CleanupCurrentSession: the ticket and the idle counter survive. */
  function Cleanup(s: State, r: Restore): State {
    s.(session := NO_SESSION,
       registry := Withdraw(s.registry, s.session.token),
       controls := DeactivateResult(s.controls, r))
  }

  function EffectiveDuration(duration: nat): (d: nat)
    ensures 0 < d <= MAX_DURATION
  {
    if Min(duration, MAX_DURATION) == 0 then MAX_DURATION else Min(duration, MAX_DURATION)
  }

  function Configure(s: State, q: Request): State
    requires q.apps != []
  {
    s.(session := Sess(Confirming, false, q.token, q.callback, EffectiveDuration(q.duration), q.apps,
                       q.apps[|q.apps| - 1], 0, q.uid, s.session.envOk, s.session.locker),
       ticket := q.ticket,
       registry := Enrol(s.registry, q.token, q.callback))
  }

  function Refuse(s: State, code: Code, r: Restore): State {
    Cleanup(Notify(s, OnBegin(code)), r)
  }

  function Open(s: State, clock: nat): State {
    s.(session := s.session.(endpoint := clock + s.session.duration, active := true, status := Active))
  }

  /** The process controller, then kiosk mode. */
  function Restrict(s: State, a: ConfirmAnswers): (State, bool) {
    var activation := ActivateResult(s.controls, a.activate, Blank);
    var s1 := s.(controls := activation.controls);
    if activation.ok then EnterKiosk(s1, a.enter) else (s1, false)
  }

  /** ConfirmationBeginLockedUnsafe. */
  function ConfirmBegin(s: State, a: ConfirmAnswers): State {
    var s1 := s.(session := s.session.(envOk := EnvSafe(s.env, a.sample)));
    if !s1.session.envOk then Refuse(s1, EnvAnomaly, a.cleanup)
    else
      var (s2, restricted) := Restrict(s1, a);
      if !restricted then Refuse(s2, SystemError, a.cleanup)
      else Notify(Save(Open(s2, a.clock), a.params), OnBegin(Success))
  }

  function GateCode(gate: Gate): ApiCode {
    if !gate.supported then CapabilityNotSupport
    else if !gate.permitted then PermissionDenied
    else ApiOk
  }

  function BeginGate(q: Request): ApiCode {
    if q.token.None? || q.callback.None? || q.apps == [] then InvalidParams else GateCode(q.gate)
  }

  function BeginCode(s: State, q: Request): ApiCode {
    if BeginGate(q) != ApiOk then BeginGate(q)
    else if s.session.active then AlreadyActive
    else if !s.running then InternalError
    else ApiOk
  }

  function Supersede(s: State): State {
    if s.session.status == Confirming then Notify(s, OnBegin(SystemError)) else s
  }

  function Admit(s: State, q: Request, cleanup: Restore): State
    requires q.apps != []
  {
    Configure(Cleanup(Supersede(s), cleanup), q)
  }

  function BeginStep(s: State, q: Request, d: Dialog, cleanup: Restore, a: ConfirmAnswers): State {
    if BeginGate(q) != ApiOk then s
    else
      var s0 := s.(idle := 0);
      if BeginCode(s, q) != ApiOk then s0
      else if d.available && d.shown then Admit(s0, q, cleanup)
      else ConfirmBegin(Admit(s0, q, cleanup), a)
  }

  // ----- Closing a session -----

  function Conclude(s: State, m: Option<Message>, r: Restore, a: ParamAnswers): State {
    Clear(Cleanup(if m.Some? then Notify(s, m.value) else s, r), a)
  }

  /** A failed exit leaves the session as it is. */
  function Interrupt(s: State, m: Message, c: Closing): State {
    var (s1, exited) := ExitKiosk(s, c.exit);
    if !exited then s1 else Conclude(s1, Some(m), c.cleanup, c.params)
  }

  function AppDie(s: State, c: Closing): State {
    Conclude(ExitKiosk(s, c.exit).0, None, c.cleanup, c.params)
  }

  function EndGate(token: Option<Remote>, gate: Gate): ApiCode {
    if token.None? then InvalidParams else GateCode(gate)
  }

  /** End compares calling uids; the token only has to be non-null. */
  function EndCode(s: State, token: Option<Remote>, uid: int, gate: Gate, c: Closing): ApiCode {
    if EndGate(token, gate) != ApiOk then EndGate(token, gate)
    else if !s.session.active then NotActive
    else if s.session.uid != uid then InvalidOperation
    else if !ExitKiosk(s, c.exit).1 then InternalError
    else ApiOk
  }

  function EndStep(s: State, token: Option<Remote>, uid: int, gate: Gate, c: Closing): State {
    if EndGate(token, gate) != ApiOk then s
    else
      var s0 := s.(idle := 0);
      if !s.session.active || s.session.uid != uid then s0
      else Interrupt(s0, OnEnd, c)
  }

  function QueryStep(s: State, gate: Gate): State {
    if GateCode(gate) == ApiOk then s.(idle := 0) else s
  }

  predicate Effective(s: State, ticket: string, operation: Operation) {
    operation != OtherOperation && s.session.status == Confirming && s.ticket == ticket
  }

  function ConfirmationStep(s: State, ticket: string, operation: Operation, a: ConfirmAnswers, c: Closing): State {
    if !Effective(s, ticket, operation) then s
    else if operation == Cancel then Conclude(s, Some(OnBegin(UserCancel)), c.cleanup, c.params)
    else ConfirmBegin(s, a)
  }

  function DialogErrorStep(s: State, ticket: string, c: Closing): State {
    if s.ticket != ticket || s.session.active then s
    else Conclude(s, Some(OnBegin(SystemError)), c.cleanup, c.params)
  }

  function AppDiedStep(s: State, bundle: string, c: Closing): State {
    if !s.session.active || s.session.bundle != bundle then s else AppDie(s, c)
  }

  function RemoteDiedStep(s: State, remote: Option<Remote>, c: Closing): State {
    if remote.None? || remote != s.session.callback then s else AppDie(s, c)
  }

  function AnomalyStep(s: State, c: Closing): State {
    if !s.session.active || s.session.token.None? then s
    else Interrupt(s, OnInterrupted(EnvAnomaly), c)
  }

  function ScreenConnectedStep(s: State, screens: Option<seq<Screen>>, c: Closing): State {
    if !s.session.active || !MultiScreen(screens) then s else AnomalyStep(s, c)
  }

  function AncoStep(s: State, isAncoKey: bool, value: string, persist: bool): State {
    if !s.params.waiting || !isAncoKey || value != "0" then s
    else s.(params := Params(false, WritePersisted(s.params.ledger, s.session.active, persist)))
  }

  // ----- The timer loop's part -----

  function NextTimeout(s: State, now: nat): (t: nat)
    ensures t <= TIME_SLICE
  {
    if !s.session.active || s.session.token.None? then TIME_SLICE
    else if now >= s.session.endpoint then 0
    else Min(s.session.endpoint - now, TIME_SLICE)
  }

  function CheckEndpoint(s: State, now: nat, c: Closing): State {
    if !s.session.active || s.session.token.None? || now < s.session.endpoint then s
    else Interrupt(s, OnInterrupted(Timeout), c)
  }

  function CheckIdle(s: State, delta: nat): State {
    if !s.session.active && s.session.status == Idle
    then s.(idle := s.idle + delta, running := s.running && s.idle + delta <= SA_IDLE_MAX)
    else s.(idle := 0)
  }

  function LoopStep(s: State, now: nat, delta: nat, c: Closing): State {
    CheckIdle(CheckEndpoint(s, now, c), delta)
  }

  // ----- Runs -----

  /** Requests of applications and answers of the dialog, as opposed to notices of the
      system and the timer. */
  predicate FromCaller(e: Event) {
    e.Begin? || e.End? || e.Query? || e.Confirmation? || e.DialogError?
  }

  function NextOfCaller(s: State, e: Event): State
    requires FromCaller(e)
  {
    match e
    case Begin(q, d, cleanup, a) => BeginStep(s, q, d, cleanup, a)
    case End(token, uid, gate, c) => EndStep(s, token, uid, gate, c)
    case Query(gate) => QueryStep(s, gate)
    case Confirmation(ticket, operation, a, c) => ConfirmationStep(s, ticket, operation, a, c)
    case DialogError(ticket, c) => DialogErrorStep(s, ticket, c)
  }

  function NextOfSystem(s: State, e: Event): State
    requires !FromCaller(e)
  {
    match e
    case AppDied(bundle, c) => AppDiedStep(s, bundle, c)
    case RemoteDied(remote, c) => RemoteDiedStep(s, remote, c)
    case Anomaly(c) => AnomalyStep(s, c)
    case ScreenConnected(screens, c) => ScreenConnectedStep(s, screens, c)
    case AncoChanged(isAncoKey, value, persist) => AncoStep(s, isAncoKey, value, persist)
    case LoopCheck(now, delta, c) => LoopStep(s, now, delta, c)
  }

  function Next(s: State, e: Event): State {
    if FromCaller(e) then NextOfCaller(s, e) else NextOfSystem(s, e)
  }

  /** The section ends with condSa_.notify_all. */
  predicate Notifies(s: State, e: Event) {
    match e
    case Begin(q, d, cleanup, a) => BeginCode(s, q) == ApiOk && !(d.available && d.shown)
    case Confirmation(ticket, operation, a, c) => Effective(s, ticket, operation) && operation == Confirm
    case _ => false
  }

  /** The state after a run of critical sections. */
  function Run(s: State, events: seq<Event>): State
    decreases |events|
  {
    if events == [] then s else Next(Run(s, events[..|events| - 1]), events[|events| - 1])
  }

  lemma {:induction false} RunConcat(s: State, first: seq<Event>, second: seq<Event>)
    ensures Run(s, first + second) == Run(Run(s, first), second)
    decreases |second|
  {
    if second == [] {
      assert first + second == first;
    } else {
      var front, e := second[..|second| - 1], second[|second| - 1];
      assert (first + second)[..|first + second| - 1] == first + front;
      RunConcat(s, first, front);
    }
  }

  // ----- Rounds of the timer loop -----

  /** One round of the loop: the sections other threads run before it takes the lock, the
      clock it reads before the wait, the sections run while it waits, and the clocks and
      answers of the check. */
  datatype Round = Round(
    before: seq<Event>,
    read: nat,
    others: seq<Event>,
    now: nat,
    start: int,
    end: int,
    closing: Closing
  )

  /** The check of a round that took the lock in state s; the idle time credited is
      capped by the computed timeout. */
  function RoundCheck(s: State, r: Round): Event {
    LoopCheck(r.now, Min(Max(0, r.end - r.start), NextTimeout(s, r.read)), r.closing)
  }

  /** The events of one round: nothing more once the lock is taken and the service is
      found to be unloading. */
  function RoundEvents(s: State, r: Round): seq<Event> {
    var s1 := Run(s, r.before);
    if s1.running then r.before + (r.others + [RoundCheck(s1, r)]) else r.before
  }

  /** The events of the loop over the given rounds: it stops when it decides to unload. */
  function LoopEvents(s: State, rounds: seq<Round>): seq<Event>
    decreases |rounds|
  {
    if rounds == [] || !s.running then []
    else
      var events := RoundEvents(s, rounds[0]);
      events + LoopEvents(Run(s, events), rounds[1..])
  }

  /** The state the loop leaves after the given rounds. */
  function AfterRounds(s: State, rounds: seq<Round>): State {
    Run(s, LoopEvents(s, rounds))
  }

  lemma RoundThenRest(s: State, rounds: seq<Round>)
    requires rounds != [] && s.running
    ensures AfterRounds(s, rounds) == AfterRounds(Run(s, RoundEvents(s, rounds[0])), rounds[1..])
  {
    var events := RoundEvents(s, rounds[0]);
    RunConcat(s, events, LoopEvents(Run(s, events), rounds[1..]));
  }
}
