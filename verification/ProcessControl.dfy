/**
  Transactional activation of the device restrictions.

  The undo closures become a list of stages. Next to its own fields the controller
  keeps a ledger of what the operating system and the extension were told: adds minus
  removes of the two listeners, every call of the two extension entry points, whether
  the extension still holds restrictions, and every stage that was undone, in order and
  with the active flag at that moment.
*/
module ProcessControl {
  import opened Types
  import opened Environment

  datatype ExtensionCall = ActivateAll | DeactivateAll

  datatype Stage = CallObserver | ScreenListener | Extension

  /** A stage that was undone, and the active flag while it was. */
  datatype Undone = Undone(stage: Stage, active: bool)

  /** A registered flag and, on the system's side, adds minus removes. */
  datatype Listener = Listener(registered: bool, balance: int)

  datatype ExtensionState = ExtensionState(loader: Option<Loader>, invocations: seq<ExtensionCall>, applied: bool)

  /** What happened outside the process, as far as the controller caused it. */
  datatype Outside = Outside(
    callBalance: int,
    screenBalance: int,
    invocations: seq<ExtensionCall>,
    applied: bool,
    undone: seq<Undone>
  )

  datatype Controls = Controls(
    activated: bool,
    call: Listener,
    screen: Listener,
    extension: ExtensionState,
    undone: seq<Undone>
  )

  /** Answers to the calls that give restrictions back. */
  datatype Restore = Restore(removeCall: bool, removeScreen: bool, deactivateAll: Verdict)

  datatype ActivateAnswers = ActivateAnswers(
    addCall: bool,
    addScreen: bool,
    activateAll: Verdict,
    undo: Restore
  )

  datatype Activation = Activation(controls: Controls, ok: bool, reason: Reason)

  // ----- What one stage does and how it is undone -----

  function Initial(library: Option<Library>): Controls {
    var loader := if library.None? then None else Some(Load(UNLOADED, library.value).0);
    Controls(false, Listener(false, 0), Listener(false, 0), ExtensionState(loader, [], false), [])
  }

  function Add(l: Listener, ok: bool): Listener {
    if l.registered || !ok then l else Listener(true, l.balance + 1)
  }

  function Remove(l: Listener, ok: bool): Listener {
    if !l.registered || !ok then l else Listener(false, l.balance - 1)
  }

  function Apply(e: ExtensionState): ExtensionState {
    if e.loader.None? then e
    else ExtensionState(e.loader, e.invocations + [ActivateAll], e.applied || e.loader.value.activateAll)
  }

  function Revert(e: ExtensionState, v: Verdict): ExtensionState {
    if e.loader.None? then e
    else ExtensionState(e.loader, e.invocations + [DeactivateAll],
                        e.applied && !(e.loader.value.deactivateAll && v.ok))
  }

  predicate Succeeds(c: Controls, stage: Stage, a: ActivateAnswers) {
    match stage
    case CallObserver => c.call.registered || a.addCall
    case ScreenListener => c.screen.registered || a.addScreen
    case Extension => c.extension.loader.Some? ==> Passes(c.extension.loader.value.activateAll, a.activateAll.ok)
  }

  function Undo(c: Controls, stage: Stage, r: Restore): Controls {
    match stage
    case CallObserver =>
      Controls(c.activated, Remove(c.call, r.removeCall), c.screen, c.extension, c.undone + [Undone(stage, c.activated)])
    case ScreenListener =>
      Controls(c.activated, c.call, Remove(c.screen, r.removeScreen), c.extension, c.undone + [Undone(stage, c.activated)])
    case Extension =>
      if c.extension.loader.None? then c
      else Controls(c.activated, c.call, c.screen, Revert(c.extension, r.deactivateAll), c.undone + [Undone(stage, c.activated)])
  }

  /** The undo list run back to front. */
  function Rollback(c: Controls, stages: seq<Stage>, r: Restore): Controls
    decreases |stages|
  {
    if stages == [] then c
    else Rollback(Undo(c, stages[|stages| - 1], r), stages[..|stages| - 1], r)
  }

  function ExtensionFailure(v: Verdict, reason: Reason): (r: Reason)
    ensures r != Blank
  {
    if v.written.GetOr(reason) == Blank then EnableVmReason else v.written.GetOr(reason)
  }

  function ActivateReason(e: ExtensionState, v: Verdict, reason: Reason): Reason {
    if e.loader.None? then reason else Invoke(e.loader.value.activateAll, v, reason).1
  }

  /** The extension stage: its undo is queued before the extension is called. */
  function ExtensionResult(c: Controls, a: ActivateAnswers, reason: Reason, stages: seq<Stage>)
    : (Controls, bool, Reason, seq<Stage>)
  {
    if c.extension.loader.None? then (c, true, reason, stages)
    else
      var c' := Controls(c.activated, c.call, c.screen, Apply(c.extension), c.undone);
      if Succeeds(c, Extension, a)
      then (c', true, ActivateReason(c.extension, a.activateAll, reason), stages + [Extension])
      else (c', false, ExtensionFailure(a.activateAll, reason), stages + [Extension])
  }

  function ActivateResult(c: Controls, a: ActivateAnswers, reason: Reason): Activation {
    var c1 := Controls(true, Add(c.call, a.addCall), c.screen, c.extension, c.undone);
    if !c1.call.registered then Abort(c1, [], a.undo, CallObserverReason)
    else
      var c2 := Controls(true, c1.call, Add(c.screen, a.addScreen), c.extension, c.undone);
      if !c2.screen.registered then Abort(c2, [CallObserver], a.undo, ScreenListenerReason)
      else
        var (c3, ok, reason', stages) := ExtensionResult(c2, a, reason, [CallObserver, ScreenListener]);
        if !ok then Abort(c3, stages, a.undo, reason')
        else Activation(c3, true, reason')
  }

  /** The active flag is cleared before the first undo runs. */
  function Abort(c: Controls, stages: seq<Stage>, r: Restore, reason: Reason): Activation {
    Activation(Rollback(Controls(false, c.call, c.screen, c.extension, c.undone), stages, r), false, reason)
  }

  function DeactivateResult(c: Controls, r: Restore): Controls {
    if !c.activated then c
    else Undo(Undo(Undo(c.(activated := false), ScreenListener, r), CallObserver, r), Extension, r)
  }

  function DeactivateReason(c: Controls, r: Restore, reason: Reason): Reason {
    if !c.activated || c.extension.loader.None? then reason
    else
      var (ok, written) := Invoke(c.extension.loader.value.deactivateAll, r.deactivateAll, reason);
      if !ok && written == Blank then EnableVmReason else written
  }

  // ----- The controller -----

  class ProcessController {
    const extLoader: ExtensionLoader?
    var activated: bool
    var callObserverRegistered: bool
    var screenListenerRegistered: bool
    ghost var outside: Outside

    /** A controller right after Init, which loads the extension once; without a library,
        one whose loader was never made. */
    constructor (library: Option<Library>)
      ensures Abs() == Initial(library)
      ensures extLoader == null || fresh(extLoader)
    {
      var extension := null;
      if library.Some? {
        extension := new ExtensionLoader();
        var _ := extension.InitExtensionLoader(library.value);
      }
      extLoader := extension;
      activated, callObserverRegistered, screenListenerRegistered := false, false, false;
      outside := Outside(0, 0, [], false, []);
    }

    function Loaded(): Option<Loader>
      reads extLoader
    {
      if extLoader == null then None else Some(extLoader.Abs())
    }

    ghost function Abs(): Controls
      reads this, extLoader
    {
      Controls(activated, Listener(callObserverRegistered, outside.callBalance),
               Listener(screenListenerRegistered, outside.screenBalance),
               ExtensionState(Loaded(), outside.invocations, outside.applied), outside.undone)
    }

    method RegisterCallObserver(added: bool) returns (ok: bool)
      modifies this
      ensures var c := old(Abs()); Abs() == Controls(c.activated, Add(c.call, added), c.screen, c.extension, c.undone)
      ensures ok == callObserverRegistered
    {
      if callObserverRegistered {
        return true;
      }
      if !added {
        return false;
      }
      outside := outside.(callBalance := outside.callBalance + 1);
      callObserverRegistered := true;
      return true;
    }

    method UnRegisterCallObserver(r: Restore)
      modifies this
      ensures Abs() == Undo(old(Abs()), CallObserver, r)
    {
      outside := outside.(undone := outside.undone + [Undone(CallObserver, activated)]);
      if !callObserverRegistered {
        return;
      }
      if r.removeCall {
        outside := outside.(callBalance := outside.callBalance - 1);
        callObserverRegistered := false;
      }
    }

    method RegisterScreenListener(added: bool) returns (ok: bool)
      modifies this
      ensures var c := old(Abs()); Abs() == Controls(c.activated, c.call, Add(c.screen, added), c.extension, c.undone)
      ensures ok == screenListenerRegistered
    {
      if screenListenerRegistered {
        return true;
      }
      if !added {
        return false;
      }
      outside := outside.(screenBalance := outside.screenBalance + 1);
      screenListenerRegistered := true;
      return true;
    }

    method UnregisterScreenListener(r: Restore)
      modifies this
      ensures Abs() == Undo(old(Abs()), ScreenListener, r)
    {
      outside := outside.(undone := outside.undone + [Undone(ScreenListener, activated)]);
      if !screenListenerRegistered {
        return;
      }
      if r.removeScreen {
        outside := outside.(screenBalance := outside.screenBalance - 1);
        screenListenerRegistered := false;
      }
    }

    method RevertExtension(r: Restore, failReason: Reason) returns (ok: bool, reason: Reason)
      requires extLoader != null
      modifies this
      ensures Abs() == Undo(old(Abs()), Extension, r)
      ensures (ok, reason) == Invoke(extLoader.Abs().deactivateAll, r.deactivateAll, failReason)
    {
      outside := outside.(
        undone := outside.undone + [Undone(Extension, activated)],
        invocations := outside.invocations + [DeactivateAll],
        applied := outside.applied && !(extLoader.symbols.deactivateAll && r.deactivateAll.ok));
      ok, reason := extLoader.InvokeDeactivateAll(r.deactivateAll, failReason);
    }

    method RunUndo(stage: Stage, r: Restore)
      modifies this
      ensures Abs() == Undo(old(Abs()), stage, r)
    {
      match stage
      case CallObserver => UnRegisterCallObserver(r);
      case ScreenListener => UnregisterScreenListener(r);
      case Extension =>
        if extLoader != null {
          var _, _ := RevertExtension(r, Blank);
        }
    }

    /** The active flag is cleared before the first undo runs. */
    method RollbackActivate(undoActions: seq<Stage>, r: Restore)
      modifies this
      ensures var c := old(Abs());
        Abs() == Rollback(Controls(false, c.call, c.screen, c.extension, c.undone), undoActions, r)
    {
      activated := false;
      ghost var start := Abs();
      var rest := undoActions;
      while rest != []
        invariant Rollback(Abs(), rest, r) == Rollback(start, undoActions, r)
        decreases |rest|
      {
        RunUndo(rest[|rest| - 1], r);
        rest := rest[..|rest| - 1];
      }
    }

    /** The undo of the extension stage is queued before the extension is called. */
    method ActivateExtension(a: ActivateAnswers, failReason: Reason, undoActions: seq<Stage>)
      returns (ok: bool, reason: Reason, undoActions': seq<Stage>)
      modifies this
      ensures (Abs(), ok, reason, undoActions') == ExtensionResult(old(Abs()), a, failReason, undoActions)
    {
      if extLoader == null {
        ok, reason, undoActions' := true, failReason, undoActions;
      } else {
        undoActions' := undoActions + [Extension];
        outside := outside.(
          invocations := outside.invocations + [ActivateAll],
          applied := outside.applied || extLoader.symbols.activateAll);
        ok, reason := extLoader.InvokeActivateAll(a.activateAll, failReason);
        if !ok && reason == Blank {
          reason := EnableVmReason;
        }
      }
    }

    method Activate(a: ActivateAnswers, failReason: Reason) returns (ok: bool, reason: Reason)
      modifies this
      ensures Activation(Abs(), ok, reason) == ActivateResult(old(Abs()), a, failReason)
    {
      activated := true;
      var undoActions: seq<Stage> := [];
      var registered := RegisterCallObserver(a.addCall);
      if !registered {
        RollbackActivate(undoActions, a.undo);
        return false, CallObserverReason;
      }
      undoActions := undoActions + [CallObserver];
      assert undoActions == [CallObserver];
      assert Abs() == Controls(true, Add(old(Abs()).call, a.addCall), old(Abs()).screen, old(Abs()).extension,
                               old(Abs()).undone);
      registered := RegisterScreenListener(a.addScreen);
      if !registered {
        RollbackActivate(undoActions, a.undo);
        return false, ScreenListenerReason;
      }
      undoActions := undoActions + [ScreenListener];
      assert undoActions == [CallObserver, ScreenListener];
      assert Abs() == Controls(true, Add(old(Abs()).call, a.addCall), Add(old(Abs()).screen, a.addScreen),
                               old(Abs()).extension, old(Abs()).undone);
      ok, reason, undoActions := ActivateExtension(a, failReason, undoActions);
      if ok {
        return;
      }
      RollbackActivate(undoActions, a.undo);
    }

    method Deactivate(r: Restore, failReason: Reason) returns (reason: Reason)
      modifies this
      ensures Abs() == DeactivateResult(old(Abs()), r)
      ensures reason == DeactivateReason(old(Abs()), r, failReason)
    {
      reason := failReason;
      if !activated {
        return;
      }
      activated := false;
      UnregisterScreenListener(r);
      UnRegisterCallObserver(r);
      if extLoader != null {
        var ok;
        ok, reason := RevertExtension(r, failReason);
        if !ok && reason == Blank {
          reason := EnableVmReason;
        }
      }
    }
  }

  // ----- What activation promises -----

  ghost predicate Alternating(calls: seq<ExtensionCall>) {
    forall i :: 0 <= i < |calls| ==> calls[i] == if i % 2 == 0 then ActivateAll else DeactivateAll
  }

  predicate Balanced(l: Listener) {
    l.balance == if l.registered then 1 else 0
  }

  /** Adds minus removes equals one exactly when the flag says registered, so no
      failed unregister is ever followed by a second registration; and the calls of
      the two extension entry points alternate, Activate first, with an Activate
      outstanding exactly while the controller is activated. */
  ghost predicate Conserved(c: Controls) {
    && Balanced(c.call)
    && Balanced(c.screen)
    && Alternating(c.extension.invocations)
    && (c.extension.loader.None? ==> c.extension.invocations == [] && !c.extension.applied)
    && (c.extension.loader.Some? ==> (c.activated <==> |c.extension.invocations| % 2 == 1))
  }

  /** The stages whose undo a failing activation runs. */
  function Completed(c: Controls, a: ActivateAnswers): seq<Stage> {
    if !Succeeds(c, CallObserver, a) then []
    else if !Succeeds(c, ScreenListener, a) then [CallObserver]
    else [CallObserver, ScreenListener, Extension]
  }

  function UndoAll(c: Controls, r: Restore): Controls {
    Undo(Undo(Undo(c, Extension, r), ScreenListener, r), CallObserver, r)
  }

  lemma RollbackOne(c: Controls, r: Restore)
    ensures Rollback(c, [CallObserver], r) == Undo(c, CallObserver, r)
  {}

  lemma RollbackFull(c: Controls, r: Restore)
    ensures Rollback(c, [CallObserver, ScreenListener, Extension], r) == UndoAll(c, r)
  {
    var all := [CallObserver, ScreenListener, Extension];
    assert all[..2] == [CallObserver, ScreenListener];
    assert all[..2][..1] == [CallObserver];
    RollbackOne(Undo(Undo(c, Extension, r), ScreenListener, r), r);
  }

  /** Activation succeeds exactly when every stage does, and the active flag is the
      returned result. Success leaves both listeners registered; failure carries the
      reason of the first failing stage. */
  lemma ActivationOutcome(c: Controls, a: ActivateAnswers)
    ensures
      var r := ActivateResult(c, a, Blank);
      && r.controls.activated == r.ok
      && r.controls.extension.loader == c.extension.loader
      && (r.ok <==> Succeeds(c, CallObserver, a) && Succeeds(c, ScreenListener, a) && Succeeds(c, Extension, a))
      && (r.ok ==> r.controls.call.registered && r.controls.screen.registered && r.controls.undone == c.undone)
      && (!r.ok ==> r.reason != Blank)
      && (Completed(c, a) == [] ==> r.reason == CallObserverReason)
      && (Completed(c, a) == [CallObserver] ==> r.reason == ScreenListenerReason)
      && (!r.ok && Extension in Completed(c, a) ==>
            r.reason == if a.activateAll.written.GetOr(Blank) == Blank then EnableVmReason
                        else a.activateAll.written.value)
  {
    assert [CallObserver, ScreenListener] + [Extension] == [CallObserver, ScreenListener, Extension];
    RollbackFull(Controls(false, Add(c.call, a.addCall), Add(c.screen, a.addScreen), Apply(c.extension), c.undone), a.undo);
    RollbackOne(Controls(false, Add(c.call, a.addCall), Add(c.screen, a.addScreen), c.extension, c.undone), a.undo);
  }

  lemma AppendAlternates(calls: seq<ExtensionCall>, call: ExtensionCall)
    requires Alternating(calls)
    requires call == if |calls| % 2 == 0 then ActivateAll else DeactivateAll
    ensures Alternating(calls + [call])
  {}

  /** Activation keeps the ledger, whatever fails. */
  lemma ActivationConserves(c: Controls, a: ActivateAnswers)
    requires Conserved(c) && !c.activated
    ensures Conserved(ActivateResult(c, a, Blank).controls)
  {
    assert [CallObserver, ScreenListener] + [Extension] == [CallObserver, ScreenListener, Extension];
    RollbackFull(Controls(false, Add(c.call, a.addCall), Add(c.screen, a.addScreen), Apply(c.extension), c.undone), a.undo);
    RollbackOne(Controls(false, Add(c.call, a.addCall), Add(c.screen, a.addScreen), c.extension, c.undone), a.undo);
    if c.extension.loader.Some? {
      AppendAlternates(c.extension.invocations, ActivateAll);
      AppendAlternates(c.extension.invocations + [ActivateAll], DeactivateAll);
    }
  }

  /** The record of undoing the stages back to front. */
  function InReverse(stages: seq<Stage>, active: bool): seq<Undone>
    decreases |stages|
  {
    if stages == [] then []
    else [Undone(stages[|stages| - 1], active)] + InReverse(stages[..|stages| - 1], active)
  }

  lemma {:induction false} RollbackUndoesInReverse(c: Controls, stages: seq<Stage>, r: Restore)
    requires c.extension.loader.Some? || Extension !in stages
    ensures Rollback(c, stages, r).undone == c.undone + InReverse(stages, c.activated)
    ensures Rollback(c, stages, r).activated == c.activated
    decreases |stages|
  {
    if stages != [] {
      var last, rest := stages[|stages| - 1], stages[..|stages| - 1];
      RollbackUndoesInReverse(Undo(c, last, r), rest, r);
      assert c.undone + InReverse(stages, c.activated)
          == c.undone + [Undone(last, c.activated)] + InReverse(rest, c.activated);
    }
  }

  /** Undoing registers nothing, and unregisters what is named if the system lets it go. */
  lemma {:induction false} RollbackReleases(c: Controls, stages: seq<Stage>, r: Restore)
    ensures
      var d := Rollback(c, stages, r);
      && (d.call.registered ==> c.call.registered)
      && (d.screen.registered ==> c.screen.registered)
      && (CallObserver in stages && r.removeCall ==> !d.call.registered)
      && (ScreenListener in stages && r.removeScreen ==> !d.screen.registered)
      && (CallObserver !in stages ==> d.call == c.call)
      && (ScreenListener !in stages ==> d.screen == c.screen)
      && (Extension !in stages ==> d.extension == c.extension)
      && (!r.removeCall ==> d.call == c.call)
      && (!r.removeScreen ==> d.screen == c.screen)
    decreases |stages|
  {
    if stages != [] {
      var last, rest := stages[|stages| - 1], stages[..|stages| - 1];
      assert stages == rest + [last];
      RollbackReleases(Undo(c, last, r), rest, r);
    }
  }

  /** All or nothing. A failing activation undoes exactly the completed stages (the
      extension stage also when it was only attempted), each once, in reverse order and
      with the active flag already cleared; when the undo calls succeed, nothing is
      registered that was not before. What the extension applied is lifted if and only if
      DeactivateAll was resolved and succeeds. */
  lemma FailedActivationLeavesNothing(c: Controls, a: ActivateAnswers)
    requires !ActivateResult(c, a, Blank).ok
    ensures
      var d := ActivateResult(c, a, Blank).controls;
      && !d.activated
      && d.undone == c.undone + InReverse(Completed(c, a), false)
      && (a.undo.removeCall && a.undo.removeScreen ==>
            && (d.call.registered ==> c.call.registered)
            && (d.screen.registered ==> c.screen.registered)
            && (CallObserver in Completed(c, a) ==> !d.call.registered)
            && (ScreenListener in Completed(c, a) ==> !d.screen.registered))
      && (Completed(c, a) == [] ==> d == c.(activated := false))
    ensures
      var before, after := c.extension, ActivateResult(c, a, Blank).controls.extension;
      if Extension in Completed(c, a)
      then before.loader.Some?
           && (after.applied <==> !(before.loader.value.deactivateAll && a.undo.deactivateAll.ok))
      else after == before
  {
    var call, screen := Add(c.call, a.addCall), Add(c.screen, a.addScreen);
    assert [CallObserver, ScreenListener] + [Extension] == [CallObserver, ScreenListener, Extension];
    var stages := Completed(c, a);
    if stages == [] {
    } else if stages == [CallObserver] {
      RollbackUndoesInReverse(Controls(false, call, screen, c.extension, c.undone), stages, a.undo);
      RollbackReleases(Controls(false, call, screen, c.extension, c.undone), stages, a.undo);
    } else {
      RollbackUndoesInReverse(Controls(false, call, screen, Apply(c.extension), c.undone), stages, a.undo);
      RollbackReleases(Controls(false, call, screen, Apply(c.extension), c.undone), stages, a.undo);
      RollbackFull(Controls(false, call, screen, Apply(c.extension), c.undone), a.undo);
    }
  }

  /** Deactivation keeps the ledger, is idempotent, undoes every stage after the active flag
      was cleared, and gives everything back when the calls succeed. */
  lemma DeactivationRestores(c: Controls, r: Restore)
    requires Conserved(c)
    ensures
      var d := DeactivateResult(c, r);
      && Conserved(d)
      && !d.activated
      && d.extension.loader == c.extension.loader
      && DeactivateResult(d, r) == d
      && (c.activated && r.removeCall ==> !d.call.registered)
      && (c.activated && r.removeScreen ==> !d.screen.registered)
      && (!r.removeCall ==> d.call == c.call)
      && (!r.removeScreen ==> d.screen == c.screen)
      && (c.activated ==>
            d.undone == c.undone + [Undone(ScreenListener, false), Undone(CallObserver, false)]
                        + (if c.extension.loader.Some? then [Undone(Extension, false)] else []))
  {}

  /** A deactivation reports exactly a refusal of the extension that is in force, with the
      extension's own reason unless that is blank. */
  lemma DeactivationNamesRefusal(c: Controls, r: Restore)
    requires r.deactivateAll.ok ==> r.deactivateAll.written == None
    ensures
      var refused := c.activated && c.extension.loader.Some? && c.extension.loader.value.deactivateAll
                     && !r.deactivateAll.ok;
      DeactivateReason(c, r, Blank)
      == if !refused then Blank
         else if r.deactivateAll.written.GetOr(Blank) == Blank then EnableVmReason
         else r.deactivateAll.written.value
  {}

  // ----- Registrations counted from the answers -----

  datatype ControlStep = Activating(answers: ActivateAnswers) | Deactivating(restore: Restore)

  function StepControls(c: Controls, step: ControlStep): Controls {
    match step
    case Activating(a) => ActivateResult(c, a, Blank).controls
    case Deactivating(r) => DeactivateResult(c, r)
  }

  function RunControls(c: Controls, steps: seq<ControlStep>): Controls
    decreases |steps|
  {
    if steps == [] then c else StepControls(RunControls(c, steps[..|steps| - 1]), steps[|steps| - 1])
  }

  predicate Fails(c: Controls, a: ActivateAnswers) {
    !(Succeeds(c, CallObserver, a) && Succeeds(c, ScreenListener, a) && Succeeds(c, Extension, a))
  }

  function ListenerOf(c: Controls, stage: Stage): Listener
    requires stage != Extension
  {
    if stage == CallObserver then c.call else c.screen
  }

  /** In this step the system accepts an add of the listener. */
  predicate Added(c: Controls, step: ControlStep, stage: Stage)
    requires stage != Extension
  {
    && step.Activating?
    && !ListenerOf(c, stage).registered
    && (if stage == CallObserver then step.answers.addCall
        else Succeeds(c, CallObserver, step.answers) && step.answers.addScreen)
  }

  /** In this step the system accepts a remove: by a deactivation, or by the rollback of a
      failing activation that got past this stage. */
  predicate Removed(c: Controls, step: ControlStep, stage: Stage)
    requires stage != Extension
  {
    match step
    case Deactivating(r) =>
      c.activated && ListenerOf(c, stage).registered && (if stage == CallObserver then r.removeCall else r.removeScreen)
    case Activating(a) =>
      Fails(c, a) && stage in Completed(c, a) && (if stage == CallObserver then a.undo.removeCall else a.undo.removeScreen)
  }

  function One(b: bool): int {
    if b then 1 else 0
  }

  /** The flag follows the accepted adds and removes, and a refused one changes nothing. */
  predicate FollowsAnswers(c: Controls, step: ControlStep, stage: Stage)
    requires stage != Extension
  {
    var before, after := ListenerOf(c, stage), ListenerOf(StepControls(c, step), stage);
    && after.registered == ((before.registered || Added(c, step, stage)) && !Removed(c, step, stage))
    && after.balance == before.balance + One(Added(c, step, stage)) - One(Removed(c, step, stage))
  }

  lemma CallFollowsAnswers(c: Controls, a: ActivateAnswers)
    ensures FollowsAnswers(c, Activating(a), CallObserver)
  {
    var call, screen := Add(c.call, a.addCall), Add(c.screen, a.addScreen);
    if !Succeeds(c, CallObserver, a) {
    } else if !Succeeds(c, ScreenListener, a) {
      RollbackOne(Controls(false, call, screen, c.extension, c.undone), a.undo);
    } else {
      assert [CallObserver, ScreenListener] + [Extension] == [CallObserver, ScreenListener, Extension];
      RollbackFull(Controls(false, call, screen, Apply(c.extension), c.undone), a.undo);
    }
  }

  lemma ScreenFollowsAnswers(c: Controls, a: ActivateAnswers)
    ensures FollowsAnswers(c, Activating(a), ScreenListener)
  {
    var call, screen := Add(c.call, a.addCall), Add(c.screen, a.addScreen);
    if !Succeeds(c, CallObserver, a) {
    } else if !Succeeds(c, ScreenListener, a) {
      RollbackOne(Controls(false, call, screen, c.extension, c.undone), a.undo);
    } else {
      assert [CallObserver, ScreenListener] + [Extension] == [CallObserver, ScreenListener, Extension];
      RollbackFull(Controls(false, call, screen, Apply(c.extension), c.undone), a.undo);
    }
  }

  lemma DeactivatingFollowsAnswers(c: Controls, r: Restore, stage: Stage)
    requires stage != Extension
    ensures FollowsAnswers(c, Deactivating(r), stage)
  {}

  lemma ListenerFollowsAnswers(c: Controls, step: ControlStep, stage: Stage)
    requires stage != Extension
    ensures FollowsAnswers(c, step, stage)
  {
    match step
    case Deactivating(r) => DeactivatingFollowsAnswers(c, r, stage);
    case Activating(a) =>
      CallFollowsAnswers(c, a);
      ScreenFollowsAnswers(c, a);
  }

  function Adds(c: Controls, steps: seq<ControlStep>, stage: Stage): nat
    requires stage != Extension
    decreases |steps|
  {
    if steps == [] then 0
    else
      var front := steps[..|steps| - 1];
      Adds(c, front, stage) + One(Added(RunControls(c, front), steps[|steps| - 1], stage))
  }

  function Removes(c: Controls, steps: seq<ControlStep>, stage: Stage): nat
    requires stage != Extension
    decreases |steps|
  {
    if steps == [] then 0
    else
      var front := steps[..|steps| - 1];
      Removes(c, front, stage) + One(Removed(RunControls(c, front), steps[|steps| - 1], stage))
  }

  /** Conservation over any run of activations and deactivations from Init: accepted adds
      minus accepted removes is one exactly while the flag says registered. */
  lemma {:induction false} RegistrationsAreConserved(library: Option<Library>, steps: seq<ControlStep>, stage: Stage)
    requires stage != Extension
    ensures
      var c := Initial(library);
      var l := ListenerOf(RunControls(c, steps), stage);
      Adds(c, steps, stage) - Removes(c, steps, stage) == l.balance == One(l.registered)
    decreases |steps|
  {
    if steps != [] {
      var front := steps[..|steps| - 1];
      RegistrationsAreConserved(library, front, stage);
      ListenerFollowsAnswers(RunControls(Initial(library), front), steps[|steps| - 1], stage);
    }
  }

  /** A completed activate/deactivate pair whose calls all succeed and that reports no
      failure has lifted the extension's restrictions if and only if it is not the case
      that ActivateAll was resolved and DeactivateAll was not: then the restrictions
      stay and no reason is given. */
  lemma ExtensionLiftedExactlyWhenRevertible(c: Controls, a: ActivateAnswers, r: Restore)
    requires Conserved(c) && !c.activated && !c.extension.applied
    requires ActivateResult(c, a, Blank).ok && r.deactivateAll == Verdict(true, None)
    ensures DeactivateReason(ActivateResult(c, a, Blank).controls, r, Blank) == Blank
    ensures
      var loader := c.extension.loader;
      !DeactivateResult(ActivateResult(c, a, Blank).controls, r).extension.applied
      <==> !(loader.Some? && loader.value.activateAll && !loader.value.deactivateAll)
  {}

  /** Such a library: everything resolves but DeactivateAll, every call succeeds, and the
      restrictions stay. */
  lemma RestrictionsStay()
    ensures
      var c := Initial(Some(Library(true, true, true, true, true, false)));
      var yes := Verdict(true, None);
      var restore := Restore(true, true, yes);
      var active := ActivateResult(c, ActivateAnswers(true, true, yes, restore), Blank);
      && active.ok
      && DeactivateReason(active.controls, restore, Blank) == Blank
      && DeactivateResult(active.controls, restore).extension.applied
  {}
}
