/**
  The closed-source extension loader and the environment checker.

  Whatever dlopen, dlsym, the extension and the system services answer is a
  parameter. A function pointer is modelled by whether it was resolved.
*/
module Environment {
  import opened Types

  // ----- Extension loader -----

  /** The handle and the five function pointers of a loader: true when non-null. */
  datatype Loader = Loader(
    handle: bool,
    checkAll: bool,
    awakeAnco: bool,
    restrictAnco: bool,
    activateAll: bool,
    deactivateAll: bool
  )

  /** What dlopen and the five dlsym calls find. */
  datatype Library = Library(
    present: bool,
    checkAll: bool,
    awakeAnco: bool,
    restrictAnco: bool,
    activateAll: bool,
    deactivateAll: bool
  )

  const UNLOADED := Loader(false, false, false, false, false, false)

  function Load(l: Loader, lib: Library): (r: (Loader, bool)) {
    if l.handle then (l, l.checkAll)
    else if !lib.present then (l, false)
    else
      var l1 := l.(handle := true, checkAll := lib.checkAll);
      if !lib.checkAll then (l1, false)
      else
        var l2 := l1.(awakeAnco := lib.awakeAnco);
        if !lib.awakeAnco then (l2, false)
        else
          var l3 := l2.(restrictAnco := lib.restrictAnco);
          if !lib.restrictAnco then (l3, false)
          else (l3.(activateAll := lib.activateAll, deactivateAll := lib.deactivateAll), true)
  }

  /** An entry point that was not resolved passes and leaves the reason alone. */
  function Invoke(resolved: bool, v: Verdict, reason: Reason): (bool, Reason) {
    if !resolved then (true, reason) else (v.ok, v.written.GetOr(reason))
  }

  predicate Passes(resolved: bool, answer: bool) {
    !resolved || answer
  }

  predicate Mandatory(l: Loader) {
    l.checkAll && l.awakeAnco && l.restrictAnco
  }

  /** Loading a fresh loader tells the truth about the mandatory symbols. Loading it again
      is a fresh attempt if no library was found, although the documentation says there is
      no retry. Otherwise it changes nothing, and tells the truth if and only if it is not
      the case that CheckAll was found but a later mandatory symbol was missing: then the
      repeated call reports success. */
  lemma RepeatedLoad(lib: Library, lib': Library)
    ensures Load(UNLOADED, lib).1 <==> Mandatory(Load(UNLOADED, lib).0)
    ensures
      var l := Load(UNLOADED, lib).0;
      if !lib.present then Load(l, lib') == Load(UNLOADED, lib')
      else
        && Load(l, lib').0 == l
        && ((Load(l, lib').1 <==> Mandatory(l)) <==> !(lib.checkAll && !(lib.awakeAnco && lib.restrictAnco)))
  {}

  /** Such a library: AwakeAnco is missing, and only the first load says so. */
  lemma RepeatedLoadMisreports()
    ensures
      var lib := Library(true, true, false, true, true, true);
      var (l, first) := Load(UNLOADED, lib);
      !Mandatory(l) && !first && Load(l, lib).1
  {}

  /** Some answer of the extension makes the call fail. */
  ghost predicate CanRefuse(resolved: bool) {
    || (exists v, reason :: !Invoke(resolved, v, reason).0)
    || (exists v, reason :: Invoke(resolved, v, reason).1 != reason)
    || (exists answer :: !Passes(resolved, answer))
  }

  /** After the load an entry point can refuse, or write a reason, exactly when it and
      every symbol looked up before it were found. So a load that failed never makes an
      activation or a deactivation fail, but CheckAll can still refuse after a load that
      failed on a later symbol. */
  lemma RefusesExactlyWhenReached(lib: Library)
    ensures
      var (l, ok) := Load(UNLOADED, lib);
      && (CanRefuse(l.checkAll) <==> lib.present && lib.checkAll)
      && (CanRefuse(l.awakeAnco) <==> CanRefuse(l.checkAll) && lib.awakeAnco)
      && (CanRefuse(l.restrictAnco) <==> CanRefuse(l.awakeAnco) && lib.restrictAnco)
      && (ok <==> CanRefuse(l.restrictAnco))
      && (CanRefuse(l.activateAll) <==> ok && lib.activateAll)
      && (CanRefuse(l.deactivateAll) <==> ok && lib.deactivateAll)
  {
    assert !Passes(true, false);
  }

  class ExtensionLoader {
    var symbols: Loader

    function Abs(): Loader
      reads this
    {
      symbols
    }

    constructor ()
      ensures Abs() == UNLOADED
    {
      symbols := UNLOADED;
    }

    method InitExtensionLoader(lib: Library) returns (ok: bool)
      modifies this
      ensures (Abs(), ok) == Load(old(Abs()), lib)
    {
      if symbols.handle {
        return symbols.checkAll;
      }
      symbols := symbols.(handle := lib.present);
      if !symbols.handle {
        return false;
      }
      symbols := symbols.(checkAll := lib.checkAll);
      if !symbols.checkAll {
        return false;
      }
      symbols := symbols.(awakeAnco := lib.awakeAnco);
      if !symbols.awakeAnco {
        return false;
      }
      symbols := symbols.(restrictAnco := lib.restrictAnco);
      if !symbols.restrictAnco {
        return false;
      }
      symbols := symbols.(activateAll := lib.activateAll, deactivateAll := lib.deactivateAll);
      return true;
    }

    /** v is what CheckAll answers when it is called; so for the other four. */
    method InvokeCheckAll(v: Verdict, failReason: Reason) returns (ok: bool, reason: Reason)
      ensures (ok, reason) == Invoke(Abs().checkAll, v, failReason)
    {
      var checkFunc := symbols.checkAll;
      if !checkFunc {
        return true, failReason;
      }
      return v.ok, v.written.GetOr(failReason);
    }

    method InvokeAwakeAnco(answer: bool) returns (ok: bool)
      ensures ok == Passes(Abs().awakeAnco, answer)
    {
      var awakeFunc := symbols.awakeAnco;
      return if awakeFunc then answer else true;
    }

    method InvokeRestrictAncoApp(answer: bool) returns (ok: bool)
      ensures ok == Passes(Abs().restrictAnco, answer)
    {
      var restrictFunc := symbols.restrictAnco;
      return if restrictFunc then answer else true;
    }

    method InvokeActivateAll(v: Verdict, failReason: Reason) returns (ok: bool, reason: Reason)
      ensures (ok, reason) == Invoke(Abs().activateAll, v, failReason)
    {
      var activateFunc := symbols.activateAll;
      if !activateFunc {
        return true, failReason;
      }
      return v.ok, v.written.GetOr(failReason);
    }

    method InvokeDeactivateAll(v: Verdict, failReason: Reason) returns (ok: bool, reason: Reason)
      ensures (ok, reason) == Invoke(Abs().deactivateAll, v, failReason)
    {
      var deactivateFunc := symbols.deactivateAll;
      if !deactivateFunc {
        return true, failReason;
      }
      return v.ok, v.written.GetOr(failReason);
    }
  }

  // ----- Environment checker -----

  /** One entry of the screen list: a null pointer, a screen whose information is
      missing, or a screen of a known kind. */
  datatype Screen = NullScreen | Unknown | Known(builtIn: bool)

  /** What the system services answer during one CheckAll. None stands for a service
      that is absent or fails. */
  datatype Sample = Sample(
    capturing: Option<nat>,
    captured: bool,
    screens: Option<seq<Screen>>,
    hasCall: Option<bool>,
    pc: bool,
    extension: Verdict,
    admins: Option<nat>
  )

  datatype EnvConfig = EnvConfig(callManagerInited: bool, loader: Loader)

  predicate Suspicious(s: Screen) {
    s == Unknown || s == Known(false)
  }

  /** More than one screen, and one of them is not confirmed to be built in. */
  predicate MultiScreen(screens: Option<seq<Screen>>) {
    && screens.Some?
    && |screens.value| > 1
    && exists i :: 0 <= i < |screens.value| && Suspicious(screens.value[i])
  }

  function ExtensionReason(v: Verdict, reason: Reason): (r: Reason)
    ensures r != Blank
  {
    if v.written.GetOr(reason) == Blank then VirtualMachineReason else v.written.GetOr(reason)
  }

  /** Every failing item in the order of the checks, without stopping at the first. */
  function Failures(env: EnvConfig, s: Sample, reason: Reason): seq<Reason> {
    (if s.capturing.GetOr(0) > 0 then [ScreenRecordingReason] else [])
    + (if s.captured then [ScreenCastingReason] else [])
    + (if MultiScreen(s.screens) then [MultiScreenReason] else [])
    + (if env.callManagerInited && s.hasCall.GetOr(false) then [InCallReason] else [])
    + (if s.pc && env.loader.checkAll && !s.extension.ok
       then [ExtensionReason(s.extension, reason)] else [])
    + (if s.admins.GetOr(0) > 0 then [EdmAdminReason] else [])
  }

  predicate EnvSafe(env: EnvConfig, s: Sample) {
    Failures(env, s, Blank) == []
  }

  /** Nothing speaks against an assessment, in terms of the answers. */
  predicate Unsuspicious(env: EnvConfig, s: Sample) {
    && s.capturing.GetOr(0) == 0
    && !s.captured
    && !MultiScreen(s.screens)
    && (env.callManagerInited ==> s.hasCall != Some(true))
    && (s.pc && env.loader.checkAll ==> s.extension.ok)
    && s.admins.GetOr(0) == 0
  }

  /** The check passes exactly when nothing speaks against an assessment; otherwise the reason given is that of
      the first item to fail, recording before casting before screens before calls before
      the extension before administrators. The extension's own reason counts unless it is
      blank. */
  lemma RefusalNamesFirstFailure(env: EnvConfig, s: Sample)
    ensures EnvSafe(env, s) <==> Unsuspicious(env, s)
    ensures
      var f := Failures(env, s, Blank);
      var recording, casting := s.capturing.GetOr(0) > 0, s.captured;
      var multi := MultiScreen(s.screens);
      var call := env.callManagerInited && s.hasCall == Some(true);
      var machine := s.pc && env.loader.checkAll && !s.extension.ok;
      && (recording ==> f != [] && f[0] == ScreenRecordingReason)
      && (casting && !recording ==> f != [] && f[0] == ScreenCastingReason)
      && (multi && !casting && !recording ==> f != [] && f[0] == MultiScreenReason)
      && (call && !multi && !casting && !recording ==> f != [] && f[0] == InCallReason)
      && (machine && !call && !multi && !casting && !recording ==>
            f != [] && f[0] == if s.extension.written.GetOr(Blank) == Blank then VirtualMachineReason
                               else s.extension.written.value)
      && (f != [] && !machine && !call && !multi && !casting && !recording ==> f == [EdmAdminReason])
  {}

  class EnvChecker {
    const loader: ExtensionLoader
    const callManagerInited: bool

    /** A checker right after Init: the extension is loaded once; a loader that remains
        degraded is not an error. */
    constructor (library: Library, callClient: bool)
      ensures Abs() == EnvConfig(callClient, Load(UNLOADED, library).0)
      ensures fresh(loader)
    {
      var extension := new ExtensionLoader();
      var _ := extension.InitExtensionLoader(library);
      loader := extension;
      callManagerInited := callClient;
    }

    function Abs(): EnvConfig
      reads loader
    {
      EnvConfig(callManagerInited, loader.Abs())
    }

    method IsMultiScreen(screens: Option<seq<Screen>>) returns (multi: bool)
      ensures multi == MultiScreen(screens)
    {
      if screens.None? || |screens.value| <= 1 {
        return false;
      }
      var i := 0;
      while i < |screens.value|
        invariant 0 <= i <= |screens.value|
        invariant forall k :: 0 <= k < i ==> !Suspicious(screens.value[k])
      {
        match screens.value[i] {
          case NullScreen =>
          case Unknown => return true;
          case Known(builtIn) =>
            if !builtIn {
              return true;
            }
        }
        i := i + 1;
      }
      return false;
    }

    method IsVirtualMachine(v: Verdict, failReason: Reason) returns (found: bool, reason: Reason)
      ensures found == (Abs().loader.checkAll && !v.ok)
      ensures found ==> reason == ExtensionReason(v, failReason)
    {
      var safe;
      safe, reason := loader.InvokeCheckAll(v, failReason);
      if !safe && reason == Blank {
        reason := VirtualMachineReason;
      }
      found := !safe;
    }

    /** A refusal always names the first failing item; its reason is never blank. */
    method CheckAll(s: Sample, failReason: Reason) returns (ok: bool, reason: Reason)
      ensures ok <==> Failures(Abs(), s, failReason) == []
      ensures !ok ==> reason == Failures(Abs(), s, failReason)[0] && reason != Blank
      ensures ok == EnvSafe(Abs(), s)
    {
      reason := failReason;
      if s.capturing.GetOr(0) > 0 {
        return false, ScreenRecordingReason;
      }
      if s.captured {
        return false, ScreenCastingReason;
      }
      var multi := IsMultiScreen(s.screens);
      if multi {
        return false, MultiScreenReason;
      }
      if callManagerInited && s.hasCall.GetOr(false) {
        return false, InCallReason;
      }
      if s.pc {
        var found;
        found, reason := IsVirtualMachine(s.extension, failReason);
        if found {
          return false, reason;
        }
      }
      if s.admins.GetOr(0) > 0 {
        return false, EdmAdminReason;
      }
      return true, reason;
    }

    method AwakeAnco(answer: bool) returns (ok: bool)
      ensures ok == Passes(Abs().loader.awakeAnco, answer)
    {
      ok := loader.InvokeAwakeAnco(answer);
    }

    method RestrictAncoApp(answer: bool) returns (ok: bool)
      ensures ok == Passes(Abs().loader.restrictAnco, answer)
    {
      ok := loader.InvokeRestrictAncoApp(answer);
    }
  }
}
