/** What each operation of the orchestrator does to memory, disk and the outside world. */
module OrchestratorSpec {
  import opened Wrappers
  import opened Bytes
  import opened Decimals
  import opened OrchestratorState

  datatype Mem = Mem(
    vt: VtState, ex: ExState, next: nat, accepted: nat, ackSeq: nat, task: Task, permit: Permit,
    executionId: Id, attemptNo: nat, lastReceived: nat, lastApplied: nat, pending: seq<Id>)

  const FRESH: Mem := Mem(NoTask, PermitPersisted, 1, 0, 1, DEFAULT_TASK, NO_PERMIT, "", 0, 0, 0, [])

  /** Durable writes and the calls that matter, as the outside sees them. */
  datatype Call =
    | Boot
    | Wrote
    | PermitGranted(permit: ExecutionRec)                 // the permit as it reads
    | StartCalled(started: bool, permit: ExecutionRec)    // the permit handed over
    | FinalReported(finalSeq: nat, rolledBack: bool)
    | ApplyCalled(revision: nat)
    | AckSent(number: nat)

  /** How many permits were allowed and installs started so far, the last permit allowed,
      whether an install was started since, and what was applied. */
  datatype Tally = Tally(permits: nat, starts: nat, granted: Option<ExecutionRec>, begun: bool, applied: set<nat>)

  /** One moment of a history: what happened, the disk right after, the tally including it. */
  datatype Moment = Moment(call: Call, disk: Disk, tally: Tally)

  datatype World = World(mem: Mem, disk: Disk, tally: Tally, log: seq<Moment>, max: nat)

  function Counted(t: Tally, call: Call): Tally {
    match call
    case PermitGranted(permit) => t.(permits := t.permits + 1, granted := Some(permit), begun := false)
    case StartCalled(started, _) => if started then t.(starts := t.starts + 1, begun := true) else t
    case ApplyCalled(revision) => t.(applied := t.applied + {revision})
    case _ => t
  }

  function Put(w: World, d: Disk): World {
    w.(disk := d, log := w.log + [Moment(Wrote, d, w.tally)])
  }

  function Say(w: World, call: Call): World {
    var t := Counted(w.tally, call);
    w.(tally := t, log := w.log + [Moment(call, w.disk, t)])
  }

  // ------------------------------------------------------------------------ persistence

  function Snapshot(t: Task): Option<Task> {
    if t == DEFAULT_TASK then None else Some(t)
  }

  function PersistTask(w: World): World {
    Put(w, w.disk.(task := Some(VehicleTaskRec(Snapshot(w.mem.task), w.mem.vt))))
  }

  function ExecutionOf(m: Mem): ExecutionRec {
    ExecutionRec(m.executionId, m.attemptNo, m.permit.permitId, m.permit.permitToken, m.permit.controlRevision,
                 m.permit.validUntilMs.GetOr(0), m.ex, m.permit.installPlanVersion.GetOr(""),
                 m.permit.offlinePolicy.GetOr([]), m.permit.timeoutPolicy.GetOr([]))
  }

  /** What a permit says, with unset fields at their defaults, as a record not yet started. */
  function PermitRead(p: Permit): ExecutionRec {
    ExecutionRec(p.executionId.GetOr(""), p.attemptNo.GetOr(0), p.permitId, p.permitToken, p.controlRevision,
                 p.validUntilMs.GetOr(0), PermitPersisted, p.installPlanVersion.GetOr(""),
                 p.offlinePolicy.GetOr([]), p.timeoutPolicy.GetOr([]))
  }

  /** Two separate writes: the execution, then the event counters. */
  function PersistExecution(w: World): World {
    var w1 := Put(w, w.disk.(execution := Some(ExecutionOf(w.mem))));
    Put(w1, w1.disk.(meta := Some(MetaRec(w.mem.next, w.mem.accepted))))
  }

  function Restored(e: ExecutionRec): Permit {
    Permit(Some(e.executionId), Some(e.attemptNo), e.permitId, e.permitToken, e.controlRevision,
           if e.validUntilMs != 0 then Some(e.validUntilMs) else None,
           if e.installPlanVersion != "" then Some(e.installPlanVersion) else None,
           if e.offlinePolicy != [] then Some(e.offlinePolicy) else None,
           if e.timeoutPolicy != [] then Some(e.timeoutPolicy) else None)
  }

  /** A new object that reconciles at start. */
  function LoadFromStore(d: Disk): Mem {
    if d.task.Some? && d.task.value.snapshot.None? then FRESH
    else LoadCounters(LoadExecution(LoadTask(FRESH, d.task), d.execution), d.meta)
  }

  function LoadTask(m: Mem, r: Option<VehicleTaskRec>): Mem {
    match r
    case Some(VehicleTaskRec(Some(task), state)) => m.(task := task, vt := state)
    case _ => m
  }

  function LoadExecution(m: Mem, r: Option<ExecutionRec>): Mem {
    match r
    case None => m
    case Some(e) => m.(ex := e.state, executionId := e.executionId, attemptNo := e.attemptNo, permit := Restored(e))
  }

  function LoadCounters(m: Mem, r: Option<MetaRec>): Mem {
    match r
    case None => m
    case Some(meta) => m.(next := meta.next, accepted := meta.accepted)
  }

  // ----------------------------------------------------------------------------- events

  /** No room left: the number before the next one has reached the bound. A next number of 0
      wraps around to the largest. */
  predicate OutboxFull(w: World) {
    var next := MetaOf(w.disk.meta).next;
    next == 0 || next - 1 >= w.max
  }

  /** Record first, counter second; the sender gets `true` only when both are durable. */
  function Emit(w: World, payload: ByteString): World {
    if OutboxFull(w) then w else AdvanceNext(SaveNewEvent(w, payload))
  }

  function SaveNewEvent(w: World, payload: ByteString): World {
    var next := MetaOf(w.disk.meta).next;
    Put(w, w.disk.(events := w.disk.events[next := EventRec(next, payload, Pending)]))
  }

  function AdvanceNext(w: World): World {
    SaveNext(w).(mem := w.mem.(next := MetaOf(w.disk.meta).next + 1))
  }

  function SaveNext(w: World): World {
    var meta := MetaOf(w.disk.meta);
    Put(w, w.disk.(meta := Some(meta.(next := meta.next + 1))))
  }

  function EmitAll(w: World, payloads: seq<ByteString>): World {
    if payloads == [] then w
    else Emit(EmitAll(w, payloads[..|payloads| - 1]), payloads[|payloads| - 1])
  }

  // ------------------------------------------------------------------------ task, consent

  function CheckTask(w: World, e: StepEnv): World {
    match e.check
    case None => w
    case Some(NotAccepted) => Put(w, w.disk.(fullRequired := true))
    case Some(TaskMissing) => w
    case Some(TaskFound(task)) => Accept(w, task)
  }

  function Accept(w: World, task: Task): World {
    MoveTo(Freeze(w, task), if task.consentRequired then ConsentPending else DownloadPending)
  }

  function Freeze(w: World, task: Task): World {
    PersistTask(w.(mem := w.mem.(task := task, vt := Discovered)))
  }

  /** Enter a state, durably. */
  function MoveTo(w: World, vt: VtState): World {
    PersistTask(w.(mem := w.mem.(vt := vt)))
  }

  function Consent(w: World, e: StepEnv): World {
    match e.consent
    case None => w
    case Some(reply) =>
      MoveTo(SaveConsent(w, reply), if reply.accepted then DownloadPending else Ended)
  }

  function SaveConsent(w: World, reply: ConsentReply): World {
    Put(w, w.disk.(consent := Some(ConsentRec(w.mem.task.id, reply.accepted, reply.receiptId))))
  }

  // -------------------------------------------------------------------------- downloading

  function DownloadEntry(d: Disk, p: Package): DownloadRec {
    if p.id in d.downloads then d.downloads[p.id]
    else DownloadRec(p.id, p.revision, "", 0, VerifyPending, "", "", false)
  }

  /** A changed entity tag starts the package over. */
  function Granted(entry: DownloadRec, grant: Grant): DownloadRec {
    match grant.etag
    case None => entry
    case Some(etag) =>
      if etag != "" && etag != entry.etag then
        entry.(offset := 0, etag := etag,
               packageRevision := if grant.packageRevision != "" then grant.packageRevision else entry.packageRevision)
      else entry.(etag := etag)
  }

  function StageIdFor(stage: Stage, p: Package, offset: nat): Id {
    if stage.id == "" then "SR-" + p.id + "-" + Chars(Decimal(offset)) else stage.id
  }

  /** One package: the entry to store, whether it held the others back, and whether the
      transport failed. */
  datatype Fetched = Fetched(entry: DownloadRec, heldBack: bool, failed: bool)

  function Fetch(entry: DownloadRec, p: Package, env: PackageEnv): Fetched {
    if env.grant.None? then Fetched(entry, true, true) else
    var entry1 := Granted(entry, env.grant.value).(offset := env.outcome.finalOffset);
    if env.outcome.stage.Some? && env.stageAccepted.None? then Fetched(entry1, true, true) else
    var good := env.outcome.stage.Some? && env.stageAccepted.value && env.outcome.succeeded;
    var entry2 :=
      if env.outcome.stage.None? then entry1
      else if good then
        entry1.(verify := VerifySucceeded, ready := true, stageResultDigest := env.outcome.stage.value.digest,
                stageResultId := StageIdFor(env.outcome.stage.value, p, entry1.offset))
      else entry1.(verify := VerifyFailed, ready := false);
    if env.outcome.succeeded then Fetched(entry2, env.outcome.stage.Some? && !good, false)
    else Fetched(entry2.(verify := VerifyFailed, ready := false), true, false)
  }

  function SaveDownload(w: World, entry: DownloadRec): World {
    Put(w, w.disk.(downloads := w.disk.downloads[entry.packageId := entry]))
  }

  /** The packages from `i` on, and the verdict over all of them. */
  function DownloadFrom(w: World, e: StepEnv, i: nat, allReady: bool): World
    requires i <= |w.mem.task.packages|
    decreases |w.mem.task.packages| - i
  {
    if i == |w.mem.task.packages| then
      MoveTo(w, if allReady then Ready else Downloading)
    else
      var p := w.mem.task.packages[i];
      var entry := DownloadEntry(w.disk, p);
      if entry.ready then DownloadFrom(w, e, i + 1, allReady)
      else
        var f := Fetch(entry, p, e.package(i));
        if f.failed then SaveDownload(w.(mem := w.mem.(vt := Downloading)), f.entry)
        else DownloadFrom(SaveDownload(w, f.entry), e, i + 1, allReady && !f.heldBack)
  }

  // ----------------------------------------------------------------------- install permit

  function RequestPermit(w: World, e: StepEnv): World {
    if w.mem.vt == Ready then MoveTo(w, WaitingWindow)
    else if e.now < w.mem.task.startMs || e.now >= w.mem.task.endMs || !e.guards then w
    else
      match e.permit
      case None => w
      case Some(None) => w
      case Some(Some(permit)) => TakePermit(Say(w, GrantOf(permit)), permit)
  }

  function GrantOf(permit: Permit): Call {
    PermitGranted(PermitRead(permit))
  }

  function TakePermit(w: World, permit: Permit): World {
    PersistExecution(MoveTo(w.(mem := Hold(w.mem, permit)), Executing))
  }

  /** A permit taken into memory; a new attempt has not been started yet. */
  function Hold(m: Mem, permit: Permit): Mem {
    m.(permit := permit, executionId := permit.executionId.GetOr(""), attemptNo := permit.attemptNo.GetOr(0),
       ex := PermitPersisted)
  }

  // ---------------------------------------------------------------------------- execution

  predicate NotYetStarted(ex: ExState) {
    ex == PermitPersisted || ex == ExReady
  }

  function Execute(w: World, e: StepEnv): World {
    if NotYetStarted(w.mem.ex) then
      if !e.prepared then w else
      var w1 := Start(w, e);
      if e.started then SendEvents(RecordStart(w1), e) else w1
    else SendEvents(w, e)
  }

  /** The installer is started; it may hand over events before it returns. */
  function Start(w: World, e: StepEnv): World {
    EmitAll(Say(w, StartOf(w, e)), e.emitted)
  }

  function StartOf(w: World, e: StepEnv): Call {
    StartCalled(e.started, PermitRead(w.mem.permit))
  }

  function RecordStart(w: World): World {
    PersistExecution(w.(mem := w.mem.(ex := InstallStarted)))
  }

  function Later(a: nat, b: nat): nat {
    if a > b then a else b
  }

  function SaveEvent(w: World, event: EventRec): World {
    Put(w, w.disk.(events := w.disk.events[event.number := event]))
  }

  /** One number of the outbox: skip, mark as sent, or report to the cloud. */
  function SendOne(w: World, e: StepEnv, s: nat): (World, bool) {
    if s !in w.disk.events || w.disk.events[s].status == Acked then (w, false) else
    var event := w.disk.events[s];
    if event.payload == [] then (SaveEvent(w, event.(status := Sent)), false)
    else if e.report(event.number) == Some(EventAccepted) then
      (SaveEvent(w.(mem := w.mem.(accepted := Later(w.mem.accepted, event.number))), event.(status := Acked)), false)
    else (SaveEvent(w, event), true)
  }

  /** Numbers 1 up to, not including, `upTo`; and whether any has to be sent again. */
  function SendUpTo(w: World, e: StepEnv, upTo: nat): (World, bool) {
    if upTo <= 1 then (w, false) else
    var (w1, again1) := SendUpTo(w, e, upTo - 1);
    var (w2, again2) := SendOne(w1, e, upTo - 1);
    (w2, again1 || again2)
  }

  function SendEvents(w: World, e: StepEnv): World {
    var meta := MetaOf(w.disk.meta);
    var (w1, again) := SendUpTo(w, e, meta.next);
    var w2 := if meta.accepted < w1.mem.accepted
              then Put(w1, w1.disk.(meta := Some(meta.(accepted := w1.mem.accepted)))) else w1;
    var w3 := PersistExecution(w2);
    if again then w3 else Finalize(w3, e)
  }

  function Finalize(w: World, e: StepEnv): World {
    var w1 := Say(w, ReportOf(w.mem));
    if e.final.Some? && e.final.value.accepted then Conclude(w1, e.final.value) else w1
  }

  /** The number and the result of the final report. */
  function ReportOf(m: Mem): Call {
    FinalReported(m.accepted, m.ex == Rollback)
  }

  function Conclude(w: World, reply: FinalReply): World {
    Close(w,
          if reply.state == RetryPending then Failed else if w.mem.ex == Rollback then RolledBack else Succeeded,
          if reply.state == NoTask then Completed else reply.state)
  }

  function Close(w: World, ex: ExState, vt: VtState): World {
    PersistExecution(MoveTo(w.(mem := w.mem.(ex := ex)), vt))
  }

  // --------------------------------------------------------------------------------- step

  /** A waiting state turns into the one it waits for. */
  function SettleMem(m: Mem): Mem {
    if m.vt == RetryPending then m.(vt := PermitPending)
    else if m.vt == RollbackPending then m.(ex := Rollback, vt := Executing)
    else m
  }

  function Settle(w: World): World {
    w.(mem := SettleMem(w.mem))
  }

  /** The work of a settled state; a paused or terminal one has none. */
  function Dispatch(w: World, e: StepEnv): World {
    match w.mem.vt
    case NoTask => CheckTask(w, e)
    case Discovered => CheckTask(w, e)
    case ConsentPending => Consent(w, e)
    case DownloadPending => DownloadFrom(w, e, 0, true)
    case Downloading => DownloadFrom(w, e, 0, true)
    case Ready => RequestPermit(w, e)
    case WaitingWindow => RequestPermit(w, e)
    case PermitPending => RequestPermit(w, e)
    case Executing => Execute(w, e)
    case _ => w
  }

  function Step(w: World, e: StepEnv): World {
    Dispatch(Settle(w), e)
  }

  // ----------------------------------------------------------------------------- controls

  function Without(ids: seq<Id>, id: Id): (r: seq<Id>)
    ensures id !in r && forall x :: x in r ==> x in ids
  {
    if ids == [] then [] else
    var rest := Without(ids[..|ids| - 1], id);
    if ids[|ids| - 1] == id then rest else rest + [ids[|ids| - 1]]
  }

  function SaveControl(w: World, r: ControlRec): World {
    Put(w, w.disk.(controls := w.disk.controls[r.revision := r]))
  }

  /** Stored before it is applied; a stored revision is a duplicate and is not applied. */
  function ApplyControl(w: World, c: Control): World {
    if c.revision in w.disk.controls then w else
    var w1 := Say(Receive(w, c), ApplyCalled(c.revision));
    if c.applied then Acknowledge(w1, c) else w1
  }

  function Receive(w: World, c: Control): World {
    SaveControl(w, ControlRec(c.controlId, c.revision, None)).(mem := w.mem.(
      lastReceived := c.revision, pending := w.mem.pending + [c.controlId]))
  }

  function Acknowledge(w: World, c: Control): World {
    Say(TakeAck(w, c), AckSent(w.mem.ackSeq))
  }

  /** The applied control, durable with the next acknowledgement number. */
  function TakeAck(w: World, c: Control): World {
    SaveControl(w, ControlRec(c.controlId, c.revision, Some(w.mem.ackSeq))).(mem := w.mem.(
      ackSeq := w.mem.ackSeq + 1, lastApplied := c.revision, pending := Without(w.mem.pending, c.controlId)))
  }
}
