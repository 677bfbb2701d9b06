/** Shared vocabulary: optional values, status and result codes, fixed limits. */
module Types {
  datatype Option<+T> = None | Some(value: T) {
    function GetOr(default: T): T {
      match this
      case Some(v) => v
      case None => default
    }
  }

  /** Identity of an IPC object; a null object is None. */
  type Remote = int

  datatype Status = Idle | Confirming | Active

  /** AssessmentErrorCode: the code carried by a callback. */
  datatype Code = Success | UserCancel | Timeout | SystemError | EnvAnomaly

  /** AssessmentApiErrCode: the code handed back by an IPC request. */
  datatype ApiCode =
    | ApiOk
    | PermissionDenied
    | InvalidParams
    | CapabilityNotSupport
    | InternalError
    | AlreadyActive
    | NotActive
    | InvalidOperation

  /** The failReason out-parameters: Blank is the empty string, the named reasons are
      the FAIL_REASON constants, Other is whatever else the extension writes. */
  datatype Reason =
    | Blank
    | ScreenRecordingReason
    | ScreenCastingReason
    | MultiScreenReason
    | InCallReason
    | VirtualMachineReason
    | EdmAdminReason
    | CallObserverReason
    | ScreenListenerReason
    | EnableVmReason
    | Other(text: string)

  /** What a call into the closed-source extension answers: its boolean result
      and what it wrote to the failReason out-parameter, if it wrote at all. */
  datatype Verdict = Verdict(ok: bool, written: Option<Reason>)

  // All durations are in milliseconds.
  const MAX_DURATION: nat := 8 * 60 * 60 * 1000
  const TIME_SLICE: nat := 5 * 1000
  const SA_IDLE_MAX: nat := 25 * 1000

  function Max(a: int, b: int): int {
    if a < b then b else a
  }

  function Min(a: int, b: int): int {
    if a < b then a else b
  }
}
