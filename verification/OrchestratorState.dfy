/** The values the orchestrator works on: states, cloud answers, persisted records. */
module OrchestratorState {
  import opened Wrappers
  import opened Bytes

  datatype VtState =
    | NoTask | Discovered | ConsentPending | DownloadPending | Downloading | Ready | WaitingWindow
    | PermitPending | Executing | RetryPending | RollbackPending | Paused | Completed | Ended

  datatype ExState =
    | PermitPersisted | ExReady | InstallStarted | Install | Reboot | PostCheck | Rollback
    | ResultPending | Succeeded | Failed | RolledBack | Canceled

  type Id = string

  /** The name a state is stored under. */
  function VtName(s: VtState): string {
    match s
    case NoTask => "NONE"
    case Discovered => "DISCOVERED"
    case ConsentPending => "CONSENT_PENDING"
    case DownloadPending => "DOWNLOAD_PENDING"
    case Downloading => "DOWNLOADING"
    case Ready => "READY"
    case WaitingWindow => "WAITING_WINDOW"
    case PermitPending => "PERMIT_PENDING"
    case Executing => "EXECUTING"
    case RetryPending => "RETRY_PENDING"
    case RollbackPending => "ROLLBACK_PENDING"
    case Paused => "PAUSED"
    case Completed => "COMPLETED"
    case Ended => "ENDED"
  }

  const VT_STATES: seq<VtState> :=
    [NoTask, Discovered, ConsentPending, DownloadPending, Downloading, Ready, WaitingWindow,
     PermitPending, Executing, RetryPending, RollbackPending, Paused, Completed, Ended]

  function ExName(s: ExState): string {
    match s
    case PermitPersisted => "PERMIT_PERSISTED"
    case ExReady => "READY"
    case InstallStarted => "INSTALL_STARTED"
    case Install => "INSTALL"
    case Reboot => "REBOOT"
    case PostCheck => "POST_CHECK"
    case Rollback => "ROLLBACK"
    case ResultPending => "RESULT_PENDING"
    case Succeeded => "SUCCEEDED"
    case Failed => "FAILED"
    case RolledBack => "ROLLED_BACK"
    case Canceled => "CANCELED"
  }

  const EX_STATES: seq<ExState> :=
    [PermitPersisted, ExReady, InstallStarted, Install, Reboot, PostCheck, Rollback, ResultPending,
     Succeeded, Failed, RolledBack, Canceled]

  /** The first listed state with this name. */
  function StateNamed<T>(states: seq<T>, name: T -> string, s: string): Option<T> {
    if states == [] then None
    else if name(states[0]) == s then Some(states[0])
    else StateNamed(states[1..], name, s)
  }

  lemma {:induction false} NamedIsFound<T(!new)>(states: seq<T>, name: T -> string, x: T)
    requires x in states && forall y :: y in states && name(y) == name(x) ==> y == x
    ensures StateNamed(states, name, name(x)) == Some(x)
  {
    if states[0] != x {
      NamedIsFound(states[1..], name, x);
    }
  }

  lemma VtNamesDiffer(x: VtState, y: VtState)
    requires x != y
    ensures VtName(x) != VtName(y)
  {
    assert VtName(x)[0] != VtName(y)[0] || |VtName(x)| != |VtName(y)|;
  }

  lemma ExNamesDiffer(x: ExState, y: ExState)
    requires x != y
    ensures ExName(x) != ExName(y)
  {
    assert ExName(x)[0] != ExName(y)[0] || |ExName(x)| != |ExName(y)|;
  }

  /** Every stored state name is read back as the state it was written for, so the records
      below hold the states themselves. */
  lemma StateNamesReadBack(vt: VtState, ex: ExState)
    ensures StateNamed(VT_STATES, VtName, VtName(vt)) == Some(vt)
    ensures StateNamed(EX_STATES, ExName, ExName(ex)) == Some(ex)
  {
    forall y | y in VT_STATES && VtName(y) == VtName(vt)
      ensures y == vt
    {
      if y != vt {
        VtNamesDiffer(y, vt);
      }
    }
    forall y | y in EX_STATES && ExName(y) == ExName(ex)
      ensures y == ex
    {
      if y != ex {
        ExNamesDiffer(y, ex);
      }
    }
    assert vt in VT_STATES by {
      VtIsListed(vt);
    }
    assert ex in EX_STATES by {
      ExIsListed(ex);
    }
    NamedIsFound(VT_STATES, VtName, vt);
    NamedIsFound(EX_STATES, ExName, ex);
  }

  lemma VtIsListed(s: VtState)
    ensures s in VT_STATES
  {
    assert VT_STATES[0] == NoTask && VT_STATES[1] == Discovered && VT_STATES[2] == ConsentPending;
    assert VT_STATES[3] == DownloadPending && VT_STATES[4] == Downloading && VT_STATES[5] == Ready;
    assert VT_STATES[6] == WaitingWindow && VT_STATES[7] == PermitPending && VT_STATES[8] == Executing;
    assert VT_STATES[9] == RetryPending && VT_STATES[10] == RollbackPending && VT_STATES[11] == Paused;
    assert VT_STATES[12] == Completed && VT_STATES[13] == Ended;
  }

  lemma ExIsListed(s: ExState)
    ensures s in EX_STATES
  {
    assert EX_STATES[0] == PermitPersisted && EX_STATES[1] == ExReady && EX_STATES[2] == InstallStarted;
    assert EX_STATES[3] == Install && EX_STATES[4] == Reboot && EX_STATES[5] == PostCheck;
    assert EX_STATES[6] == Rollback && EX_STATES[7] == ResultPending && EX_STATES[8] == Succeeded;
    assert EX_STATES[9] == Failed && EX_STATES[10] == RolledBack && EX_STATES[11] == Canceled;
  }

  datatype Package = Package(id: Id, revision: Id)

  datatype Task = Task(
    id: Id, revision: nat, consentRequired: bool, packages: seq<Package>, startMs: int, endMs: int,
    rest: ByteString)   // every other field of the message

  /** The message without any field set; it serialises to no bytes at all. */
  const DEFAULT_TASK: Task := Task("", 0, false, [], 0, 0, [])

  /** A permit as received; an unset field is absent, and reads as its default. */
  datatype Permit = Permit(
    executionId: Option<Id>, attemptNo: Option<nat>, permitId: Id, permitToken: Id, controlRevision: nat,
    validUntilMs: Option<int>, installPlanVersion: Option<Id>,
    offlinePolicy: Option<ByteString>, timeoutPolicy: Option<ByteString>)

  const NO_PERMIT: Permit := Permit(None, None, "", "", 0, None, None, None, None)

  // ------------------------------------------------------------------ persisted records

  /** `snapshot` is the hex of the serialised task; an empty text has no task in it. */
  datatype VehicleTaskRec = VehicleTaskRec(snapshot: Option<Task>, state: VtState)

  datatype ConsentRec = ConsentRec(taskId: Id, accepted: bool, receiptId: Id)

  datatype Verify = VerifyPending | VerifySucceeded | VerifyFailed

  datatype DownloadRec = DownloadRec(
    packageId: Id, packageRevision: Id, etag: Id, offset: nat, verify: Verify,
    stageResultId: Id, stageResultDigest: Id, ready: bool)

  datatype ExecutionRec = ExecutionRec(
    executionId: Id, attemptNo: nat, permitId: Id, permitToken: Id, controlRevision: nat, validUntilMs: int,
    state: ExState, installPlanVersion: Id, offlinePolicy: ByteString, timeoutPolicy: ByteString)

  datatype MetaRec = MetaRec(next: nat, accepted: nat)

  datatype SendStatus = Pending | Sent | Acked

  /** An event without payload comes from the old store. */
  datatype EventRec = EventRec(number: nat, payload: ByteString, status: SendStatus)

  datatype ControlRec = ControlRec(controlId: Id, revision: nat, ackNumber: Option<nat>)

  datatype Disk = Disk(
    task: Option<VehicleTaskRec>,
    fullRequired: bool,
    consent: Option<ConsentRec>,
    downloads: map<Id, DownloadRec>,
    execution: Option<ExecutionRec>,
    meta: Option<MetaRec>,
    events: map<nat, EventRec>,
    controls: map<nat, ControlRec>)

  const EMPTY_DISK: Disk := Disk(None, false, None, map[], None, None, map[], map[])

  function MetaOf(m: Option<MetaRec>): MetaRec {
    m.GetOr(MetaRec(1, 0))
  }

  // ------------------------------------------------------------------- what others answer

  datatype CheckReply = NotAccepted | TaskMissing | TaskFound(task: Task)

  datatype ConsentReply = ConsentReply(accepted: bool, receiptId: Id)

  datatype Grant = Grant(etag: Option<Id>, packageRevision: Id)

  datatype Stage = Stage(id: Id, digest: Id)

  datatype Outcome = Outcome(succeeded: bool, stage: Option<Stage>, finalOffset: nat)

  /** One package: `None` for a transport failure. */
  datatype PackageEnv = PackageEnv(grant: Option<Grant>, outcome: Outcome, stageAccepted: Option<bool>)

  datatype Disposition = EventAccepted | EventOther

  /** `retry` when the cloud wants a retry, `task` the state it assigns. */
  datatype FinalReply = FinalReply(accepted: bool, state: VtState)

  /** Everything one step may be told; `None` for a transport failure. */
  datatype StepEnv = StepEnv(
    check: Option<CheckReply>,
    consent: Option<ConsentReply>,
    package: nat -> PackageEnv,
    now: int, guards: bool,
    permit: Option<Option<Permit>>,    // the inner `None`: not allowed
    prepared: bool, started: bool, emitted: seq<ByteString>,
    report: nat -> Option<Disposition>,
    final: Option<FinalReply>)

  datatype Control = Control(controlId: Id, revision: nat, applied: bool)
}
