/**
  Kiosk mode and the power filters over the life of a session, and what a failed begin or
  exit leaves behind.

  Assumptions on the device: only this service changes kiosk mode; a call that fails has
  no effect; ExitKioskMode leaves kiosk mode unless it answers an error other than the
  two that say there is nothing to leave.
*/
module Kiosk {
  import opened Types
  import opened Environment
  import opened ProcessControl
  import opened Callbacks
  import opened Session
  import opened SessionInvariant

  predicate Restricted(d: Device) {
    d.suspend && d.lid && d.powerKey
  }

  predicate FiltersOff(d: Device) {
    !d.suspend && !d.lid && !d.powerKey
  }

  predicate AllPower(a: PowerAnswers) {
    a.suspend && a.lid && a.powerKey
  }

  // ----- A session while it runs -----

  /** The running session is the one of a: nothing but its running lock changed, and
      kiosk mode and the whitelist are as a left them. */
  ghost predicate Frozen(a: State, s: State) {
    && s.session.active
    && s.session.(locker := a.session.locker) == a.session
    && s.ticket == a.ticket
    && s.registry == a.registry
    && s.controls == a.controls
    && s.device.kiosk == a.device.kiosk
    && s.device.whitelist == a.device.whitelist
    && s.device.entryIme == a.device.entryIme
  }

  /** From s to s' the running session stayed, or it was closed; none was enrolled. */
  ghost predicate FrozenOrClosed(s: State, s': State) {
    && |s'.registry.enrolled| == |s.registry.enrolled|
    && (Frozen(s, s') || s'.session == NO_SESSION)
  }

  lemma InterruptFreezesOrCloses(s: State, m: Message, c: Closing)
    requires Inv(s) && s.session.active
    ensures FrozenOrClosed(s, Interrupt(s, m, c))
    ensures Interrupt(s, m, c).session == NO_SESSION <==> ExitKiosk(s, c.exit).1
  {}

  lemma EndActiveStep(s: State, token: Option<Remote>, uid: int, gate: Gate, c: Closing)
    requires Inv(s) && s.session.active
    ensures FrozenOrClosed(s, EndStep(s, token, uid, gate, c))
  {
    InterruptFreezesOrCloses(s.(idle := 0), OnEnd, c);
  }

  lemma DeathActiveStep(s: State, c: Closing)
    requires Inv(s) && s.session.active
    ensures FrozenOrClosed(s, s) && FrozenOrClosed(s, AppDie(s, c))
  {
    ExitKeepsSession(s, c.exit);
  }

  lemma AnomalyActiveStep(s: State, c: Closing)
    requires Inv(s) && s.session.active
    ensures FrozenOrClosed(s, s) && FrozenOrClosed(s, AnomalyStep(s, c))
  {
    InterruptFreezesOrCloses(s, OnInterrupted(EnvAnomaly), c);
  }

  lemma LoopActiveStep(s: State, now: nat, delta: nat, c: Closing)
    requires Inv(s) && s.session.active
    ensures FrozenOrClosed(s, LoopStep(s, now, delta, c))
  {
    InterruptFreezesOrCloses(s, OnInterrupted(Timeout), c);
  }

  lemma SystemActiveStep(s: State, e: Event)
    requires Inv(s) && s.session.active && !FromCaller(e)
    ensures FrozenOrClosed(s, Next(s, e))
  {
    match e
    case AppDied(bundle, c) => DeathActiveStep(s, c);
    case RemoteDied(remote, c) => DeathActiveStep(s, c);
    case Anomaly(c) => AnomalyActiveStep(s, c);
    case ScreenConnected(screens, c) => AnomalyActiveStep(s, c);
    case AncoChanged(isAncoKey, value, persist) => AncoChangesParams(s, e);
    case LoopCheck(now, delta, c) => LoopActiveStep(s, now, delta, c);
  }

  /** One critical section either leaves a running session and its configuration as they
      are, or closes it. */
  lemma ActiveStep(s: State, e: Event)
    requires Inv(s) && s.session.active
    ensures FrozenOrClosed(s, Next(s, e))
  {
    if !FromCaller(e) {
      SystemActiveStep(s, e);
    } else if e.End? {
      EndActiveStep(s, e.token, e.uid, e.gate, e.closing);
    } else {
      ActiveIgnores(s, e);
    }
  }

  /** Without a session only an accepted Begin, which enrols one more, changes anything. */
  lemma IdleStep(s: State, e: Event)
    requires Inv(s) && s.session.status == Idle
    ensures
      var s' := Next(s, e);
      || (s'.session == NO_SESSION && s'.registry.enrolled == s.registry.enrolled)
      || |s'.registry.enrolled| == |s.registry.enrolled| + 1
  {
    match e
    case Begin(q, d, cleanup, a) =>
      if BeginCode(s, q) == ApiOk {
        var s1 := Admit(s.(idle := 0), q, cleanup);
        assert |s1.registry.enrolled| == |s.registry.enrolled| + 1;
        ConfirmAppends(s1, a);
      }
    case _ =>
  }

  /** Over a whole run: as long as no further session was enrolled, a running session is
      still the same one with the same configuration, kiosk mode and whitelist. */
  lemma {:induction false} FrozenWhileActive(a: State, events: seq<Event>)
    requires Inv(a) && a.session.active
    requires |Run(a, events).registry.enrolled| == |a.registry.enrolled|
    ensures Inv(Run(a, events))
    ensures Frozen(a, Run(a, events)) || Run(a, events).session == NO_SESSION
    decreases |events|
  {
    if events != [] {
      var front, e := events[..|events| - 1], events[|events| - 1];
      EnrolledGrows(a, front);
      HistoryGrows(Run(a, front), e);
      FrozenWhileActive(a, front);
      NextKeepsInv(Run(a, front), e);
      if Run(a, front).session == NO_SESSION {
        IdleStep(Run(a, front), e);
      } else {
        ActiveStep(Run(a, front), e);
      }
    }
  }

  lemma {:induction false} EnrolledGrows(s: State, events: seq<Event>)
    ensures |s.registry.enrolled| <= |Run(s, events).registry.enrolled|
    decreases |events|
  {
    if events != [] {
      EnrolledGrows(s, events[..|events| - 1]);
      HistoryGrows(Run(s, events[..|events| - 1]), events[|events| - 1]);
    }
  }

  // ----- Closing -----

  predicate Interrupts(e: Event) {
    e.End? || e.Anomaly? || e.ScreenConnected? || e.LoopCheck?
  }

  /** End, timeout and environment anomaly close a session only together with kiosk mode
      and all three filters; otherwise the session goes on under kiosk mode. */
  lemma InterruptedIsReleased(s: State, e: Event)
    requires Inv(s) && s.session.active && Interrupts(e)
    ensures
      var s' := Next(s, e);
      if s'.session.active then s'.device.kiosk
      else s'.session == NO_SESSION && !s'.device.kiosk && FiltersOff(s'.device)
           && AllPower(e.closing.exit.power) && Exits(e.closing.exit)
  {
    ExitKeepsSession(s, e.closing.exit);
    ExitKeepsSession(s.(idle := 0), e.closing.exit);
  }

  /** The death of the caller always closes the session, also one that an earlier failed
      exit left with fewer restrictions; kiosk mode is left, and everything is released, if
      and only if every power call succeeds and one of the three attempts leaves kiosk
      mode. */
  lemma DeathReleasesExactlyWhenExitSucceeds(s: State, e: Event)
    requires Inv(s) && s.session.active
    requires (e.AppDied? && e.bundle == s.session.bundle) || (e.RemoteDied? && e.remote == s.session.callback)
    ensures
      var s' := Next(s, e);
      && s'.session == NO_SESSION
      && (!s'.device.kiosk <==> AllPower(e.closing.exit.power) && Exits(e.closing.exit))
      && (!s'.device.kiosk && FiltersOff(s'.device) <==> AllPower(e.closing.exit.power) && Exits(e.closing.exit))
      && Lifted(s.device, s'.device, e.closing.exit.power)
  {
    ExitLifts(s, e.closing.exit);
  }

  /** From device d0 to d the power filters were lifted one after the other, up to the first
      call that failed. */
  predicate Lifted(d0: Device, d: Device, power: PowerAnswers) {
    && (d.suspend <==> d0.suspend && !power.suspend)
    && (d.lid <==> d0.lid && !(power.suspend && power.lid))
    && (d.powerKey <==> d0.powerKey && !AllPower(power))
  }

  lemma ExitLifts(s: State, a: ExitAnswers)
    ensures Lifted(s.device, ExitKiosk(s, a).0.device, a.power)
  {}

  /** A session that survives a failed exit is not as restricted as before: its running
      lock is released, and it keeps only the filters from the first failed call on. */
  lemma FailedExitWeakens(s: State, m: Message, c: Closing)
    requires Inv(s) && s.session.active && !ExitKiosk(s, c.exit).1
    ensures
      var s' := Interrupt(s, m, c);
      && Frozen(s, s')
      && s'.session.locker == Lock(false)
      && Lifted(s.device, s'.device, c.exit.power)
      && (Restricted(s'.device) <==> Restricted(s.device) && !c.exit.power.suspend)
  {
    ExitLifts(s, c.exit);
  }

  /** Until it is closed an expired session is checked without waiting, whatever requests,
      notices and failed attempts came in between; the first check whose calls all succeed
      closes it, and no other check does. */
  lemma RetriesUntilExitSucceeds(s: State, events: seq<Event>, now: nat, check: Event)
    requires Inv(s) && s.session.active
    requires |Run(s, events).registry.enrolled| == |s.registry.enrolled| && Run(s, events).session.active
    requires now >= s.session.endpoint && check.LoopCheck? && check.now >= s.session.endpoint
    ensures
      var s1 := Run(s, events);
      var s2 := Next(s1, check);
      && NextTimeout(s1, now) == 0
      && (if AllPower(check.closing.exit.power) && Exits(check.closing.exit)
          then s2.session == NO_SESSION && !s2.device.kiosk && FiltersOff(s2.device)
          else Frozen(s, s2) && NextTimeout(s2, now) == 0)
  {
    FrozenWhileActive(s, events);
    var s1 := Run(s, events);
    if AllPower(check.closing.exit.power) && Exits(check.closing.exit) {
      SuccessfulCheckCloses(s1, check);
    } else {
      InterruptFreezesOrCloses(s1, OnInterrupted(Timeout), check.closing);
    }
  }

  lemma SuccessfulCheckCloses(s: State, e: Event)
    requires Inv(s) && s.session.active && e.LoopCheck? && e.now >= s.session.endpoint
    requires AllPower(e.closing.exit.power) && Exits(e.closing.exit)
    ensures Next(s, e).session == NO_SESSION && !Next(s, e).device.kiosk && FiltersOff(Next(s, e).device)
    ensures NextTimeout(s, e.now) == 0
  {}

  // ----- A begin that fails -----

  /** The confirmation gets as far as the power filters. */
  ghost predicate ReachesFilters(s: State, a: ConfirmAnswers) {
    && EnvSafe(s.env, a.sample)
    && ActivateResult(s.controls, a.activate, Blank).ok
    && Passes(s.env.loader.restrictAnco, a.enter.restrictAnco)
  }

  /** From device d0 to d, when reached says whether the filters were reached: each filter
      is on afterwards if and only if it was on before, or it was reached and the calls up
      to this one succeeded; the list stays if and only if it was added; kiosk mode is as it
      was. */
  ghost predicate LeftBehind(d0: Device, d: Device, a: EnterAnswers, reached: bool, list: set<string>) {
    && (d.suspend <==> d0.suspend || (reached && a.power.suspend))
    && (d.lid <==> d0.lid || (reached && a.power.suspend && a.power.lid))
    && (d.powerKey <==> d0.powerKey || (reached && AllPower(a.power)))
    && d.kiosk == d0.kiosk
    && d.whitelist == d0.whitelist
                      + (if reached && AllPower(a.power) && HoldScreen(a) == Lock(true) && a.addList then list else {})
  }

  lemma FailedEntryLeavesBehind(s: State, a: EnterAnswers)
    requires !EnterKiosk(s, a).1
    ensures LeftBehind(s.device, EnterKiosk(s, a).0.device, a, Passes(s.env.loader.restrictAnco, a.restrictAnco),
                       Elements(FinalAppList(s.session.apps, a.ime)))
  {}

  /** A refused session does not release what it already took, on any device. */
  lemma RefusedBeginLeavesBehind(s: State, a: ConfirmAnswers)
    requires Inv(s) && s.session.status == Confirming
    requires !ConfirmBegin(s, a).session.active
    ensures LeftBehind(s.device, ConfirmBegin(s, a).device, a.enter, ReachesFilters(s, a),
                       Elements(FinalAppList(s.session.apps, a.enter.ime)))
  {
    var activation := ActivateResult(s.controls, a.activate, Blank);
    var s1 := s.(session := s.session.(envOk := EnvSafe(s.env, a.sample)), controls := activation.controls);
    if EnvSafe(s.env, a.sample) && activation.ok {
      FailedEntryLeavesBehind(s1, a.enter);
    }
  }

  // ----- Two short runs -----

  const YES := Verdict(true, None)
  const GIVEN_BACK := Restore(true, true, YES)
  const ALL_POWER := PowerAnswers(true, true, true)
  const WRITTEN := ParamAnswers("", true, true, true)

  /** A service that just started, without extension, telephony or filters. */
  const FRESH := State(
    NO_SESSION, "", 0, true, Registry(map[], [], []), Initial(None),
    Device(false, false, false, false, {}, ""), Params(false, Ledger(false, false, false, false)),
    EnvConfig(false, UNLOADED))

  const REQUEST := Request(Some(1), 60000, ["exam"], Some(2), 7, Gate(true, true), "ticket")

  /** All calls succeed, but for the last one if kiosk is false. */
  function Calls(kiosk: bool): ConfirmAnswers {
    ConfirmAnswers(Sample(None, false, None, None, false, YES, None),
                   ActivateAnswers(true, true, YES, GIVEN_BACK),
                   EnterAnswers(true, true, true, ALL_POWER, "", true, kiosk),
                   0, WRITTEN, GIVEN_BACK)
  }

  /** A request that needs no dialog. */
  function Opening(kiosk: bool): Event {
    Event.Begin(REQUEST, Dialog(false, false), GIVEN_BACK, Calls(kiosk))
  }

  lemma FreshIsStarting()
    ensures Starting(FRESH)
  {}

  lemma OpeningConfirms(kiosk: bool)
    ensures Next(FRESH, Opening(kiosk)) == ConfirmBegin(Admit(FRESH, REQUEST, GIVEN_BACK), Calls(kiosk))
  {}

  /** Kiosk mode cannot be entered: the begin is refused, and the filters and the list
      stay. */
  lemma RefusedBeginExample()
    ensures
      var s := Next(FRESH, Opening(false));
      && s.session == NO_SESSION && s.registry.log == [Delivery(1, 2, OnBegin(SystemError))]
      && Restricted(s.device) && "exam" in s.device.whitelist
  {
    OpeningConfirms(false);
    assert "exam" in FinalAppList(["exam"], "");
  }

  lemma OpeningOpens()
    ensures
      var s := Next(FRESH, Opening(true));
      s.session.active && s.session.uid == 7 && Restricted(s.device) && s.session.locker == Lock(true)
  {
    OpeningConfirms(true);
  }

  /** The first filter is lifted and the second is not: End fails, and the session goes on
      without that filter and without its running lock. */
  lemma FailedExitExample()
    ensures
      var s := Next(FRESH, Opening(true));
      var exit := ExitAnswers(PowerAnswers(true, false, true), Left, Left, Left, "", true);
      var s' := Next(s, End(Some(1), 7, Gate(true, true), Closing(exit, GIVEN_BACK, WRITTEN)));
      && s.session.active && Restricted(s.device) && s.session.locker == Lock(true)
      && s'.session.active && !s'.device.suspend && s'.session.locker == Lock(false)
  {
    OpeningOpens();
  }

  // ----- Whitelist -----

  /** An admitted session starts with its list on the whitelist and the device restricted. */
  lemma OpenedIsListed(s: State, a: ConfirmAnswers)
    requires ConfirmBegin(s, a).session.active && !s.session.active
    ensures
      var s' := ConfirmBegin(s, a);
      && s'.device.whitelist == s.device.whitelist + Elements(FinalAppList(s.session.apps, a.enter.ime))
      && s'.device.entryIme == a.enter.ime
      && s'.session.apps == s.session.apps
      && s'.device.kiosk && Restricted(s'.device)
      && s'.session.locker == Lock(true)
  {}

  /** With the default input method changed in between, nothing of the added list stays
      behind if and only if the exit's list still covers the old input method. */
  lemma ListLeftBehindExactly(apps: seq<string>, entryIme: string, exitIme: string)
    ensures
      var added, removed := Elements(FinalAppList(apps, entryIme)), Elements(FinalAppList(apps, exitIme));
      added <= removed
      <==> entryIme == ""
           || ImeBundle(entryIme) in apps + PRESET_KIOSK_BUNDLE_LIST
           || (exitIme != "" && ImeBundle(exitIme) == ImeBundle(entryIme))
  {
    var base := apps + PRESET_KIOSK_BUNDLE_LIST;
    forall ime ensures forall x :: x in FinalAppList(apps, ime) <==> x in base || (ime != "" && x == ImeBundle(ime)) {
      assert FinalAppList(apps, ime) == base + (if ime == "" then [] else [ImeBundle(ime)]);
    }
    if entryIme != "" {
      assert ImeBundle(entryIme) in Elements(FinalAppList(apps, entryIme));
    }
  }
}
