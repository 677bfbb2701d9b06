# Verification model of the assessment configuration service

This project models the service that puts a device into assessment mode for one
application at a time, and proves what every run of it keeps.

One session slot is driven by many threads: IPC requests, dialog answers, common
events, lid and screen events, death notices, a parameter watch and a timer thread.
Every entry point is one critical section under the service lock. The model is a
transition system whose steps are these critical sections; each step carries its
arguments and whatever the outside world answers while it lasts, so no answer of any
system service is excluded unless a lemma says so.

| file | contents |
|---|---|
| `Types.dfy` | result codes, limits, fail reasons |
| `BundleNames.dfy` | bundle-name scanner and its grammar, canonical allowed-apps list |
| `Environment.dfy` | extension loader, environment checks |
| `ProcessControl.dfy` | transactional activation, rollback, deactivation and their ledger |
| `Callbacks.dfy` | token-to-callback table, with the history of enrolments and messages |
| `Session.dfy` | the session protocol on values: states, events, `Next`, `Run` |
| `Service.dfy` | class `AssessmentService`: every method proved to make exactly one transition of `Session.dfy` |
| `SessionInvariant.dfy` | agreement of all fields at every release of the lock, and its consequences |
| `CallbackProtocol.dfy` | what each session's callback object is told |
| `Tickets.dfy` | confirmation tickets take effect at most once, and never after their session |
| `Persistence.dfy` | the deferred parameter write refines an eager one |
| `Kiosk.dfy` | kiosk mode, power filters, what failed calls leave behind |
| `Outcomes.dfy` | what every event does, exactly: opening, waiting, closing, error codes, whitelist round trip |
| `TimerLoop.dfy` | the loop on a clock: expiry window, lost wakeups, idle unload |
| `LoopRounds.dfy` | the loop of the class plays exactly the rounds of the clocked model |
| `LockOrder.dfy` | deadlock freedom for any number of threads |

Classes keep the fields of the C++ classes; the fields that belong to one session, and
the pointers of a loader, are grouped in one record. Effects outside the process
(listeners registered with the system, calls of the extension, kiosk mode, filters,
whitelist, parameters) are kept in ghost ledgers beside the code that causes them. The
environment checker and the process controller each own an `ExtensionLoader` and call it.

Where the code and its documentation differ, the model follows the code:

- `End` compares calling uids, not tokens (`README_en.md:133` says tokens);
  `SessionInvariant.EndIgnoresWhichToken`.
- Hibernation and shutdown only publish trace events, so they are no steps here
  (`README_en.md:96` says they exit assessment mode).
- A begin that fails after reaching the power filters does not release them, nor the
  whitelist; `Kiosk.RefusedBeginLeavesBehind` gives the exact condition,
  `Kiosk.RefusedBeginExample` an instance
  (`README_en.md:68` says every path releases the control).
- A failed exit keeps the session but has already released the running lock and
  possibly filters; `Kiosk.FailedExitWeakens` gives the exact condition,
  `Kiosk.FailedExitExample` an instance.
- A load that finds no library is tried again by the next call
  (`services/assessment_service/include/extension_loader.h:89-90` says it is not).
- Loading an extension a second time can report success although a mandatory symbol is
  missing; `Environment.RepeatedLoad` gives the exact condition,
  `Environment.RepeatedLoadMisreports` an instance
  (`services/assessment_service/include/extension_loader.h:90-95`).
- A load that fails on a symbol after `CheckAll` leaves `CheckAll` in force, so the loader
  is not degraded throughout; `Environment.RefusesExactlyWhenReached` says which entry
  point passes by default (`services/assessment_service/include/extension_loader.h:93-95`).
- With `ActivateAll` resolved and `DeactivateAll` missing, deactivation reports success
  and the extension's restrictions stay;
  `ProcessControl.ExtensionLiftedExactlyWhenRevertible` gives the exact condition,
  `ProcessControl.RestrictionsStay` an instance.
- Activation happens under the service lock, unlike
  `services/assessment_service/include/process_controller.h:204-206` says.

## Model

| member | source | states |
|---|---|---|
| BundleNames.IsValidBundleName | frameworks/js/napi/assessment/assessment_napi.cpp:41-71 | the one-pass scanner accepts exactly the names whose dot-separated segments satisfy the grammar |
| BundleNames.GrammarIsJoinOfSegments | frameworks/js/napi/assessment/assessment_napi.cpp:41-71 | a name is accepted iff it is some list of at least three legal segments joined by dots |
| BundleNames.SplitThenJoin | frameworks/js/napi/assessment/assessment_napi.cpp:51-66 | splitting a name at its dots loses nothing |
| BundleNames.JoinThenSplit | frameworks/js/napi/assessment/assessment_napi.cpp:51-66 | joining dotless segments and splitting gives them back |
| BundleNames.Normalise | frameworks/js/napi/assessment/assessment_napi.cpp:273-278 | the list handed on is sorted, without duplicates, with the caller once and last, and has exactly the requested names plus the caller |
| BundleNames.CanonicalIsUnique | frameworks/js/napi/assessment/assessment_napi.cpp:273-278 | the normalised list depends only on the set of names, not on order, duplicates or the caller listing itself |
| BundleNames.CanonicalIsIdempotent | frameworks/js/napi/assessment/assessment_napi.cpp:273-278 | normalising twice changes nothing |
| BundleNames.WithinLimits | frameworks/js/napi/assessment/assessment_napi.cpp:279-294 | accepted iff at most 20 names, every name valid, at most 2048 characters in all |
| BundleNames.PrepareAllowedApps | frameworks/js/napi/assessment/assessment_napi.cpp:265-294 | returns the canonical admissible list, and refuses only when no canonical list is admissible |
| Environment.ExtensionLoader.constructor | services/assessment_service/src/extension_loader.cpp:25 | a new loader has no handle and no symbols |
| Environment.ExtensionLoader.InitExtensionLoader | services/assessment_service/src/extension_loader.cpp:37-81 | which pointers and which result a load attempt leaves, also when repeated |
| Environment.RepeatedLoad | services/assessment_service/src/extension_loader.cpp:37-65 | the first load reports truthfully whether the mandatory symbols are there; a repeated one is a fresh attempt iff no library was found, and otherwise truthful iff no mandatory symbol after CheckAll was missing |
| Environment.RepeatedLoadMisreports | services/assessment_service/src/extension_loader.cpp:40-65 | such a library: AwakeAnco is missing and only the first load says so |
| Environment.RefusesExactlyWhenReached | services/assessment_service/src/extension_loader.cpp:37-202 | after a load an entry point can refuse or write a reason iff it and every symbol looked up before it were found |
| Environment.EnvChecker.constructor | services/assessment_service/src/env_checker.cpp:39-52 | the state after Init: telephony may be absent and the extension degraded |
| Environment.EnvChecker.IsMultiScreen | services/assessment_service/src/env_checker.cpp:142-174 | true iff there are several screens and some non-null one is not confirmed built in |
| Environment.EnvChecker.IsVirtualMachine | services/assessment_service/src/env_checker.cpp:221-235 | found iff the extension is there and refuses; the reason is then never blank |
| Environment.EnvChecker.CheckAll | services/assessment_service/src/env_checker.cpp:54-97 | passes iff no item of the complete list of checks fails; otherwise the reason is that of the first failing item and not blank |
| Environment.RefusalNamesFirstFailure | services/assessment_service/src/env_checker.cpp:54-97 | in terms of the answers: the check passes iff no item speaks against it, and the reason is that of the first failing item in the order of the checks |
| ProcessControl.ProcessController.constructor | services/assessment_service/src/process_controller.cpp:96-103 | the state after Init: inactive, nothing registered |
| ProcessControl.ProcessController.RegisterCallObserver | services/assessment_service/src/process_controller.cpp:254-271 | one more registration only if none was there and the system agrees |
| ProcessControl.ProcessController.UnRegisterCallObserver | services/assessment_service/src/process_controller.cpp:273-287 | the flag falls only with a successful removal |
| ProcessControl.ProcessController.RegisterScreenListener | services/assessment_service/src/process_controller.cpp:289-305 | one more registration only if none was there and the system agrees |
| ProcessControl.ProcessController.UnregisterScreenListener | services/assessment_service/src/process_controller.cpp:307-320 | the flag falls only with a successful removal |
| ProcessControl.ProcessController.RevertExtension | services/assessment_service/src/process_controller.cpp:174-181 | one DeactivateAll; restrictions are lifted only if it exists and succeeds |
| ProcessControl.ProcessController.RollbackActivate | services/assessment_service/src/process_controller.cpp:162-172 | the loop undoes the queued stages back to front, each with the active flag already cleared |
| ProcessControl.ProcessController.ActivateExtension | services/assessment_service/src/process_controller.cpp:142-160 | queues the undo before the call; a failure has a non-blank reason |
| ProcessControl.ProcessController.Activate | services/assessment_service/src/process_controller.cpp:105-140 | makes exactly the transition of the activation specification, whatever fails |
| ProcessControl.ProcessController.Deactivate | services/assessment_service/src/process_controller.cpp:183-209 | makes exactly the transition of the deactivation specification and reports an extension failure |
| ProcessControl.ActivationOutcome | services/assessment_service/src/process_controller.cpp:105-160 | succeeds iff every stage does; both listeners are then registered; a failure names the first failing stage, for the extension its own reason or, if that is blank, the fallback |
| ProcessControl.FailedActivationLeavesNothing | services/assessment_service/include/process_controller.h:111-121 | a failure undoes exactly the completed stages (and the attempted extension) once each, in reverse order and after the active flag was cleared; nothing stays registered that was not before; what the extension applied is lifted iff DeactivateAll was resolved and succeeds |
| ProcessControl.RollbackUndoesInReverse | services/assessment_service/src/process_controller.cpp:162-172 | any undo list runs completely, once each, in reverse order, with the flag it found |
| ProcessControl.RollbackReleases | services/assessment_service/src/process_controller.cpp:162-172 | any rollback registers nothing, unregisters what it names if the system lets it go, and leaves the rest alone |
| ProcessControl.ActivationConserves | services/assessment_service/src/process_controller.cpp:105-172 | adds minus removes equals the flag, and extension calls keep alternating, for any answers |
| ProcessControl.ListenerFollowsAnswers | services/assessment_service/src/process_controller.cpp:105-320 | each registered flag follows the adds and removes the system accepted; a refused one changes nothing |
| ProcessControl.RegistrationsAreConserved | services/assessment_service/src/process_controller.cpp:254-320 | over every run of activations and deactivations from Init, accepted adds minus accepted removes, counted from the answers, is 1 while the flag is set and 0 otherwise |
| ProcessControl.DeactivationRestores | services/assessment_service/src/process_controller.cpp:183-209 | keeps the ledger, is idempotent, undoes every stage in order after the active flag was cleared, releases what the system lets go |
| ProcessControl.DeactivationNamesRefusal | services/assessment_service/src/process_controller.cpp:183-209 | a deactivation reports exactly a refusal of the extension in force, with its own reason or, if that is blank, the fallback |
| ProcessControl.ExtensionLiftedExactlyWhenRevertible | services/assessment_service/src/extension_loader.cpp:67-77 | after a successful pair the extension's restrictions are lifted iff not (ActivateAll resolved and DeactivateAll missing) |
| ProcessControl.RestrictionsStay | services/assessment_service/src/extension_loader.cpp:67-77 | such a library: everything resolves but DeactivateAll, every call succeeds and the restrictions stay |
| Callbacks.CallbackManager.constructor | services/assessment_service/src/callback_manager.cpp:24-28 | empty table and histories |
| Callbacks.CallbackManager.RegisterCallback | services/assessment_service/src/callback_manager.cpp:30-41 | the entry and the enrolment; nothing for a null argument |
| Callbacks.CallbackManager.UnregisterCallback | services/assessment_service/src/callback_manager.cpp:43-57 | exactly this token's entry goes |
| Callbacks.CallbackManager.Send | services/assessment_service/src/callback_manager.cpp:80-132 | one message to the object of this token, none if there is no entry |
| Service.AssessmentService.constructor | services/assessment_service/src/assessment_service.cpp:140-190 | the state after Init: no session, parameters reset to false |
| Service.AssessmentService.CleanupCurrentSession | services/assessment_service/src/assessment_service.cpp:300-333 | restrictions given back, entry withdrawn, every session field reset; ticket and idle counter survive |
| Service.AssessmentService.ConfigCurrentSession | services/assessment_service/src/assessment_service.cpp:280-298 | the session of the request, waiting for confirmation, duration capped at 8 hours |
| Service.AssessmentService.UpdateState | services/assessment_service/src/assessment_service.cpp:267-278 | writes through when anco is awake, otherwise defers |
| Service.AssessmentService.SaveState | services/assessment_service/src/assessment_service.cpp:244-253 | both parameters after a save |
| Service.AssessmentService.ClearState | services/assessment_service/src/assessment_service.cpp:255-265 | both parameters after a clear |
| Service.AssessmentService.RemarkSaIdle | services/assessment_service/src/assessment_service.cpp:714-717 | only the idle counter is reset |
| Service.AssessmentService.SetScreenOffFilters | services/assessment_service/src/assessment_service.cpp:1250-1272 | how far the three filters got before the first failure |
| Service.AssessmentService.HoldScreenRunning | services/assessment_service/src/assessment_service.cpp:1237-1248 | the lock object and whether it is held |
| Service.AssessmentService.FindImeBundle | services/assessment_service/src/assessment_service.cpp:1279-1284 | the scan finds the part before the first slash |
| Service.AssessmentService.FinalApps | services/assessment_service/src/assessment_service.cpp:1274-1290 | allowed apps, presets, and the default input method |
| Service.AssessmentService.EnterKioskMode | services/assessment_service/src/assessment_service.cpp:943-983 | what each failure leaves behind and when kiosk mode is on |
| Service.AssessmentService.TryExitKiosk | services/assessment_service/src/assessment_service.cpp:1000-1023 | succeeds iff one of three attempts succeeds or is benign |
| Service.AssessmentService.ExitKioskMode | services/assessment_service/src/assessment_service.cpp:985-1032 | lock, filters, kiosk mode and whitelist after an exit, and when it counts as left |
| Service.AssessmentService.Reject | services/assessment_service/src/assessment_service.cpp:850-871 | one OnBegin with the code, then clean-up |
| Service.AssessmentService.ConfirmationBegin | services/assessment_service/src/assessment_service.cpp:864-910 | the whole confirmation, with every way it can fail |
| Service.AssessmentService.CheckEnvironment | services/assessment_service/src/assessment_service.cpp:873-874 | the check result recorded in the session is whether no item of the environment check fails |
| Service.AssessmentService.RestrictDevice | services/assessment_service/src/assessment_service.cpp:878-894 | process controller, then kiosk mode, and which failure leaves what behind |
| Service.AssessmentService.StartCountdown | services/assessment_service/src/assessment_service.cpp:896-905 | endpoint, active state, saved parameters and OnBegin(OK) |
| Service.AssessmentService.CheckBeginPreconditions | services/assessment_service/src/assessment_service.cpp:335-362 | which error code an ill-formed or forbidden request gets |
| Service.AssessmentService.Begin | services/assessment_service/src/assessment_service.cpp:392-447 | transition, error code, and whether the loop is notified |
| Service.AssessmentService.Occupy | services/assessment_service/src/assessment_service.cpp:420-429 | a waiting session is told SYSTEM_ERROR and replaced |
| Service.AssessmentService.HandleBegin | services/assessment_service/src/assessment_service.cpp:819-848 | an answer counts only while confirming and with the current ticket |
| Service.AssessmentService.BeginDialogSystemError | services/assessment_service/src/assessment_service.cpp:1218-1235 | a dialog failure closes the session of its ticket unless active |
| Service.AssessmentService.Finish | services/assessment_service/src/assessment_service.cpp:912-921 | message, clean-up, cleared parameters |
| Service.AssessmentService.ExitAndFinish | services/assessment_service/src/assessment_service.cpp:923-941 | nothing is closed unless kiosk mode was left |
| Service.AssessmentService.CheckEndPreconditions | services/assessment_service/src/assessment_service.cpp:364-390 | which error code an ill-formed or forbidden request gets |
| Service.AssessmentService.End | services/assessment_service/src/assessment_service.cpp:449-494 | transition and error code |
| Service.AssessmentService.AppDieLocked | services/assessment_service/src/assessment_service.cpp:1047-1058 | closes silently even if kiosk mode could not be left |
| Service.AssessmentService.AppDieHandle | services/assessment_service/src/assessment_service.cpp:1034-1045 | only the active session of this bundle is closed |
| Service.AssessmentService.OnRemoteDied | services/assessment_service/src/assessment_service.cpp:1316-1326 | only the session of this callback object is closed, in any status |
| Service.AssessmentService.EnvAnomalyLocked | services/assessment_service/src/assessment_service.cpp:1060-1077 | an active session is interrupted if kiosk mode can be left |
| Service.AssessmentService.OnExternalScreenConnected | services/assessment_service/src/assessment_service.cpp:1180-1206 | an anomaly only if active and multi-screen |
| Service.AssessmentService.AncoStateChangeCallback | services/assessment_service/src/assessment_service.cpp:1127-1155 | a pending write is made when anco is reported awake |
| Service.AssessmentService.GetConfiguration | services/assessment_service/src/assessment_service.cpp:496-538 | reads the session and counts as a request |
| Service.AssessmentService.ComputeNextTaskTimeout | services/assessment_service/src/assessment_service.cpp:666-684 | a slice, or the rest of the session if shorter, or zero |
| Service.AssessmentService.CheckEndpointAndExecuteTask | services/assessment_service/src/assessment_service.cpp:686-700 | an expired active session is timed out |
| Service.AssessmentService.CheckAndHandleSaIdle | services/assessment_service/src/assessment_service.cpp:702-712 | idle time accumulates only without a session; above 25 s the service stops |
| Service.AssessmentService.AfterWait | services/assessment_service/src/assessment_service.cpp:652-658 | check, then idle accounting with the capped delta |
| Service.AssessmentService.WaitAndCheck | services/assessment_service/src/assessment_service.cpp:646-658 | the timeout computed before the wait, the sections of other threads during it, then one check whose idle time is capped by that timeout |
| Service.AssessmentService.DoRound | services/assessment_service/src/assessment_service.cpp:640-661 | one round: the sections other threads run before the loop takes the lock, then the wait and the check unless the service is found to be unloading |
| Service.AssessmentService.DoLoop | services/assessment_service/src/assessment_service.cpp:636-664 | the loop makes exactly the transitions of its rounds, and no further round once it decided to unload |
| Service.AssessmentService.Serve | services/assessment_service/src/assessment_service.cpp:392-1326 | every entry point is one step of the transition system, and notifies the loop exactly when that step does |
| SessionInvariant.InvOnRuns | services/assessment_service/src/assessment_service.cpp:280-333 | after every run: active flag, status, controller and check result agree; without a session all its fields and the table are empty; with one the table is exactly its entry, its bundle the last allowed app, its duration in (0, 8 h], kiosk on while active |
| SessionInvariant.NextKeepsInv | services/assessment_service/src/assessment_service.cpp:392-494 | every critical section keeps that invariant, for all arguments and answers |
| SessionInvariant.RestrictionsAreBracketed | services/assessment_service/src/process_controller.cpp:105-209 | over every run listeners are registered as often as flagged, and extension activations and deactivations alternate, one outstanding exactly while active |
| SessionInvariant.BeginAdmits | services/assessment_service/src/assessment_service.cpp:392-447 | a new session is admitted iff well formed, permitted, none active and running; it carries the caller's token, callback, uid, apps, ticket and capped duration |
| SessionInvariant.ConfirmationSucceedsExactly | services/assessment_service/src/assessment_service.cpp:864-983 | a confirmation starts the session iff no check and no restriction fails |
| SessionInvariant.UnloadingIsFinal | services/assessment_service/src/assessment_service.cpp:414-418 | once the service stops there is no session after any run, and every begin is refused |
| SessionInvariant.CallerExitCloses | services/assessment_service/src/assessment_service.cpp:1034-1058 | with a list from the binding, exactly the caller's exit closes the active session |
| SessionInvariant.EndIsForTheOwner | services/assessment_service/src/assessment_service.cpp:449-494 | End closes only for the uid that began and only if kiosk mode is left; otherwise the session goes on |
| SessionInvariant.EndIgnoresWhichToken | services/assessment_service/src/assessment_service.cpp:449-494 | End succeeds iff active, permitted, the uid of the begin and all exit calls succeed; any two non-null tokens have the same effect |
| SessionInvariant.HotplugJudgesLikeAdmission | services/assessment_service/src/assessment_service.cpp:1186-1205 | a connected screen interrupts exactly under the multi-screen judgement that refuses admission, if kiosk mode can be left |
| SessionInvariant.HistoryGrows | services/assessment_service/src/callback_manager.cpp:80-132 | no section takes back a message or an enrolment |
| Outcomes.BeginCodeByCause | services/assessment_service/src/assessment_service.cpp:335-447 | each error code of begin has exactly one cause, the first that applies |
| Outcomes.EndCodeByCause | services/assessment_service/src/assessment_service.cpp:364-494 | each error code of end has exactly one cause, the first that applies |
| Outcomes.OpensExactly | services/assessment_service/src/assessment_service.cpp:819-910 | a session starts exactly by an accepted begin without dialog or a confirmation with the current ticket, if nothing speaks against it and no call fails |
| Outcomes.BeginOpensExactly | services/assessment_service/src/assessment_service.cpp:392-447 | an accepted begin waits for its dialog if there is one, and otherwise opens its session iff it can; a refused one changes only the idle counter |
| Outcomes.WaitEndsExactly | services/assessment_service/src/assessment_service.cpp:819-848 | which events end a wait for confirmation, and what each leaves; every other event leaves the session waiting |
| Outcomes.ClosesExactly | services/assessment_service/src/assessment_service.cpp:1034-1206 | a running session is closed by exactly the events listed, each with its condition on the answers: End, caller exit, callback death, anomaly, multi-screen hotplug, expiry |
| Outcomes.RunsUntilClosed | services/assessment_service/src/assessment_service.cpp:449-1206 | over every run a session goes on, with its configuration frozen, through every event that does not close it, and ends with the first that does |
| Outcomes.IdleIgnores | services/assessment_service/src/assessment_service.cpp:702-712 | without a session only an accepted begin does more than count idle time or write a parameter again |
| Outcomes.ClosingDeletes | services/assessment_service/src/assessment_service.cpp:1023-1030 | however a session is closed, also by the death of the caller, its list goes from the whitelist iff the exit and the deletion succeed |
| Outcomes.WhitelistRoundTrip | services/assessment_service/src/assessment_service.cpp:965-1030 | from admission through any run to whatever closes the session, the whitelist returns to what it was when the input method did not change |
| CallbackProtocol.ProtocolOnRuns | services/assessment_service/src/assessment_service.cpp:405-941 | over every run each session's own callback object receives nothing, one OnBegin, or OnBegin(OK) and one final message; exactly OnBegin(OK) while active; never another session's message |
| CallbackProtocol.LeavingConfirming | services/assessment_service/src/assessment_service.cpp:819-941 | a wait ends with exactly one OnBegin with the code of its cause; only the death of the callback object is silent |
| CallbackProtocol.LeavingActive | services/assessment_service/src/assessment_service.cpp:923-1077 | an active session hears nothing until closed, then OnEnd, TIMEOUT or ENV_ANOMALY by cause, and nothing on caller death |
| CallbackProtocol.ConfirmFollows | services/assessment_service/src/assessment_service.cpp:864-910 | a confirmation sends one OnBegin: OK iff the session starts, ENV_ANOMALY iff the environment check refused |
| Tickets.SettledWithinIssued | services/assessment_service/src/assessment_service.cpp:284 | in any run a ticket is settled at most as often as it was issued, counting a pending one |
| Tickets.TicketTakesEffectOnce | services/assessment_service/src/assessment_service.cpp:827-847 | with fresh tickets each takes effect at most once |
| Tickets.NeverPendingAgain | services/assessment_service/src/assessment_service.cpp:827-847 | a ticket that no session waits for stays so over any run that does not issue it again |
| Tickets.StaleAnswerIsInert | services/assessment_service/src/assessment_service.cpp:827-847 | over any run, once the session of a ticket was answered, superseded or finished, an answer that carries it settles nothing and changes no session, table or control |
| Persistence.SaveWritesOrDefers | services/assessment_service/src/assessment_service.cpp:244-278 | with anco awake the write is made at once, otherwise it is left pending and nothing is written; a failed write keeps the old value |
| Persistence.OpeningWrites | services/assessment_service/src/assessment_service.cpp:896-901 | opening writes or defers the flag for the active state, in this way, and a refused begin writes nothing |
| Persistence.ClosingWrites | services/assessment_service/src/assessment_service.cpp:919-920 | closing writes or defers the flag for the inactive state, in this way |
| Persistence.PersistedOnRuns | services/assessment_service/src/assessment_service.cpp:244-278 | over every run a persistent flag that is neither pending nor failed equals the active flag; the shared one too unless its last write failed |
| Persistence.AwakeNeverDefers | services/assessment_service/src/assessment_service.cpp:267-278 | over every run in which anco is awake at every write nothing is ever pending, and the flag equals the active flag unless its last write failed |
| Persistence.DeferredRefinesEager | services/assessment_service/src/assessment_service.cpp:267-278 | the service behaves as one that writes on every save and clear, and holds the same flag whenever no write is pending or failed |
| Persistence.WakeUpSettles | services/assessment_service/src/assessment_service.cpp:1127-1155 | after any run the notice that anco is awake leaves nothing pending, and unless the write failed the flag is what an eager service would hold |
| Kiosk.FrozenWhileActive | services/assessment_service/src/assessment_service.cpp:292-327 | over every run the configuration, kiosk mode and whitelist are frozen until the session closes |
| Kiosk.InterruptedIsReleased | services/assessment_service/src/assessment_service.cpp:923-1077 | a session closed by End, timeout or anomaly leaves kiosk mode and all three filters off; one that goes on is under kiosk mode |
| Kiosk.DeathReleasesExactlyWhenExitSucceeds | services/assessment_service/src/assessment_service.cpp:1047-1058 | caller death always closes, also after a failed exit; kiosk mode is left, and the device released, iff the exit calls succeed; which filters a failing exit still lifts |
| Kiosk.FailedExitWeakens | services/assessment_service/src/assessment_service.cpp:985-1023 | a session that survives a failed exit has lost its running lock and every filter before the first failed power call |
| Kiosk.FailedExitExample | services/assessment_service/src/assessment_service.cpp:985-1023 | such a run: End fails on the second filter and the session goes on without the first filter and the running lock |
| Kiosk.RetriesUntilExitSucceeds | services/assessment_service/src/assessment_service.cpp:666-700 | after any run of other sections an expired session is checked without waiting, and a check closes it iff its calls succeed |
| Kiosk.RefusedBeginLeavesBehind | services/assessment_service/src/assessment_service.cpp:943-983 | on any device, a refused begin leaves each filter on iff it was on or had been set, the list iff it was added, and kiosk mode as it was |
| Kiosk.RefusedBeginExample | services/assessment_service/src/assessment_service.cpp:943-983 | such a run from the start: kiosk mode cannot be entered, and the filters and the list stay |
| Kiosk.OpenedIsListed | services/assessment_service/src/assessment_service.cpp:943-983 | a started session has its list whitelisted and all restrictions on |
| Kiosk.ListLeftBehindExactly | services/assessment_service/src/assessment_service.cpp:1274-1290 | with a changed input method nothing stays behind iff the exit's list covers the old one |
| TimerLoop.TimedRunIsRun | services/assessment_service/src/assessment_service.cpp:636-664 | forgetting the clock and the wait, a timed run is a run of critical sections, so every theorem about runs holds of it |
| LoopRounds.TheLoopPlaysTheRun | services/assessment_service/src/assessment_service.cpp:636-664 | after every check of a timed run the service is where the loop of the class is after the rounds of that run, one round per check, so every timing theorem holds of that loop |
| LoopRounds.ExpiredRoundCloses | services/assessment_service/src/assessment_service.cpp:646-658 | a round that finds the session expired closes it if the exit calls succeed |
| LoopRounds.StoppedLoopIsDone | services/assessment_service/src/assessment_service.cpp:640-644 | once the loop has stopped it plays no further round |
| TimerLoop.LatenessIsBounded | services/assessment_service/src/assessment_service.cpp:636-684 | until the first check after expiry the clock is at most D + L past the endpoint, whatever the slices, wakeups and the time other sections take |
| TimerLoop.ExpiryWindow | services/assessment_service/src/assessment_service.cpp:686-700 | the loop never closes early, its first check after expiry is at most D + L late, and closes iff the exit calls succeed |
| TimerLoop.TimeoutIsNeverEarly | services/assessment_service/src/assessment_service.cpp:923-941 | TIMEOUT is sent only by a loop check of an expired active session |
| TimerLoop.NoWakeupIsLost | services/assessment_service/src/assessment_service.cpp:641-652 | a waiting loop with an active session and no pending notification wakes by the endpoint |
| TimerLoop.ActivationNotifies | services/assessment_service/src/assessment_service.cpp:442-443 | a session becomes active only in a section that notifies the loop, with endpoint clock + duration |
| TimerLoop.IdleCounterIsBounded | services/assessment_service/src/assessment_service.cpp:702-717 | in every state of a timed run the idle counter is at most 30 s, and at most a slice ahead of the time since the last counted request or live session |
| TimerLoop.UnloadIsSafe | services/assessment_service/src/assessment_service.cpp:702-712 | the service stops only idle and more than 20 s after the last counted request or live session |
| TimerLoop.IdleServiceUnloads | services/assessment_service/src/assessment_service.cpp:636-717 | in every timed run, for any delays: without counted requests and with waits slept out, the k-th check leaves the idle counter at 5 s times k, five keep the service running and the sixth stops it, and when each check comes |
| TimerLoop.PunctualWaits | services/assessment_service/src/assessment_service.cpp:636-684 | in every timed run without delays and spurious wakeups, the first check that finds a session expired comes exactly at its endpoint, after exactly ceil(duration / 5 s) waits since its activation |
| TimerLoop.SixthSliceUnloads | services/assessment_service/src/assessment_service.cpp:702-712 | five full idle slices do not stop the service, the sixth does |
| LockOrder.ProgramOrdered | services/assessment_service/src/process_controller.cpp:96-236 | every program of sections, and of start-up calls outside any section, takes locks in rising order and releases them all |
| LockOrder.NoWaitCycle | services/assessment_service/src/extension_loader.cpp:95-112 | for any threads and any interleaving no thread waits for itself, directly or through others |
| LockOrder.NoDeadlock | services/assessment_service/src/assessment_service.cpp:1180-1206 | while some thread is unfinished, some thread can take a step |

## Left out

- LockOrder.NoDeadlock: assumes that no call out of a section re-enters the service synchronously; callbacks are sent while the service lock and the table lock are held.
- TimerLoop.ExpiryWindow: one monotone clock stands for the system clock and the steady clock, so clock adjustments are not modelled. L counts from the moment the wait is over or the notifying section has read the clock, so it includes the rest of that section with its callbacks.
- Kiosk.InterruptedIsReleased: assumes that only this service changes kiosk mode, that a failed call has no effect, and that the two benign codes mean there is no kiosk mode.
- Locks of other services (the screen manager's or the telephony client's around a listener callback): not part of `LockOrder`, whose programs take the locks of this service only.
- `NotifyBegin`, `NotifyInterrupted` and `NotifyEnd` (services/assessment_service/src/assessment_service.cpp:612-634): public helpers that send callbacks without the service lock; nothing in the service calls them, so they are no steps here.
- Tickets.TicketTakesEffectOnce: freshness of random tickets is a premise.
- Service.AssessmentService.DoLoop: is given the rounds it plays, because how long a wait lasts and who runs meanwhile is decided outside; `LoopRounds` ties the rounds to the steps of `TimerLoop`. The call that unloads the service after the loop is left out.
- IPC stubs, parcels, the dialog connection and the client proxy: transport; the dialog is "shown or not" and its answers are events.
- The NAPI and ANI value conversion and JS callback references: runtime glue around the scanner and the list.
- Telemetry events, log output, and message texts of callbacks: they do not influence any state of the model.
- Hibernation, shutdown and boot events: they only publish telemetry.
- Death-recipient subscriptions: a death notice may arrive for any object at any time.
- The probe of kiosk status at start-up, `Quit`, and saving across restarts beyond the reset to false.
- AR model download and NPU inference: thin wrappers with no part in the session.
- Telephony auto-reject: forwards one call per incoming call while activated.
