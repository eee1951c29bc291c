/** The orchestrator object: fields updated step by step, proved against the specification. */
module OrchestratorClass {
  import opened Wrappers
  import opened Bytes
  import opened Decimals
  import opened OrchestratorState
  import opened OrchestratorSpec

  class FotaOrchestrator {
    var disk: Disk
    const max: nat

    var vtState: VtState
    var exState: ExState
    var nextSeq: nat
    var acceptedSeq: nat
    var ackSeq: nat
    var frozenTask: Task
    var permit: Permit
    var executionId: Id
    var attemptNo: nat
    var lastReceivedControlRev: nat
    var lastAppliedControlRev: nat
    var pendingControlIds: seq<Id>

    ghost var tally: Tally
    ghost var log: seq<Moment>

    ghost function Memory(): Mem
      reads this
    {
      Mem(vtState, exState, nextSeq, acceptedSeq, ackSeq, frozenTask, permit, executionId, attemptNo,
          lastReceivedControlRev, lastAppliedControlRev, pendingControlIds)
    }

    ghost function Now(): World
      reads this
    {
      World(Memory(), disk, tally, log, max)
    }

    /** Construct and reconcile with what the store holds. */
    constructor (disk: Disk, max: nat, ghost tally: Tally, ghost log: seq<Moment>)
      ensures Now() == World(LoadFromStore(disk), disk, tally, log, max)
    {
      this.disk := disk;
      this.max := max;
      this.tally := tally;
      this.log := log;
      vtState, exState, nextSeq, acceptedSeq, ackSeq := NoTask, PermitPersisted, 1, 0, 1;
      frozenTask, permit, executionId, attemptNo := DEFAULT_TASK, NO_PERMIT, "", 0;
      lastReceivedControlRev, lastAppliedControlRev, pendingControlIds := 0, 0, [];
      new;
      ReconcileOnStart();
    }

    method ReconcileOnStart()
      requires Memory() == FRESH
      modifies this
      ensures Now() == old(Now()).(mem := LoadFromStore(old(disk)))
    {
      if disk.task.Some? {
        if disk.task.value.snapshot.None? {
          return;
        }
        vtState := disk.task.value.state;
        frozenTask := disk.task.value.snapshot.value;
      }
      if disk.execution.Some? {
        RestoreExecution(disk.execution.value);
      }
      if disk.meta.Some? {
        nextSeq := disk.meta.value.next;
        acceptedSeq := disk.meta.value.accepted;
      }
    }

    method RestoreExecution(e: ExecutionRec)
      modifies `exState, `executionId, `attemptNo, `permit
      ensures Memory() == LoadExecution(old(Memory()), Some(e))
    {
      exState := e.state;
      executionId := e.executionId;
      attemptNo := e.attemptNo;
      permit := NO_PERMIT.(
        executionId := Some(e.executionId), attemptNo := Some(e.attemptNo), permitId := e.permitId,
        permitToken := e.permitToken, controlRevision := e.controlRevision);
      if e.validUntilMs != 0 {
        permit := permit.(validUntilMs := Some(e.validUntilMs));
      }
      if e.installPlanVersion != "" {
        permit := permit.(installPlanVersion := Some(e.installPlanVersion));
      }
      if e.offlinePolicy != [] {
        permit := permit.(offlinePolicy := Some(e.offlinePolicy));
      }
      if e.timeoutPolicy != [] {
        permit := permit.(timeoutPolicy := Some(e.timeoutPolicy));
      }
    }

    // ------------------------------------------------------------------------- persistence

    method Save(d: Disk)
      modifies `disk, `log
      ensures Now() == Put(old(Now()), d)
    {
      disk := d;
      log := log + [Moment(Wrote, d, tally)];
    }

    ghost method Note(call: Call)
      modifies `tally, `log
      ensures Now() == Say(old(Now()), call)
    {
      tally := Counted(tally, call);
      log := log + [Moment(call, disk, tally)];
    }

    method PersistVehicleTask()
      modifies `disk, `log
      ensures Now() == PersistTask(old(Now()))
    {
      var snapshot := if frozenTask == DEFAULT_TASK then None else Some(frozenTask);
      Save(disk.(task := Some(VehicleTaskRec(snapshot, vtState))));
    }

    method EnterState(vt: VtState)
      modifies `vtState, `disk, `log
      ensures Now() == MoveTo(old(Now()), vt)
    {
      vtState := vt;
      PersistVehicleTask();
    }

    method StoreExecution()
      modifies `disk, `log
      ensures Now() == PersistExecution(old(Now()))
    {
      var r := ExecutionRec(
        executionId, attemptNo, permit.permitId, permit.permitToken, permit.controlRevision,
        permit.validUntilMs.GetOr(0), exState, permit.installPlanVersion.GetOr(""),
        permit.offlinePolicy.GetOr([]), permit.timeoutPolicy.GetOr([]));
      Save(disk.(execution := Some(r)));
      Save(disk.(meta := Some(MetaRec(nextSeq, acceptedSeq))));
    }

    // ------------------------------------------------------------------------------ events

    /** The event sink: `true` only when record and counter are both durable. */
    method EmitEvent(payload: ByteString) returns (ok: bool)
      modifies `disk, `log, `nextSeq
      ensures Now() == Emit(old(Now()), payload) && ok == !OutboxFull(old(Now()))
    {
      var meta := disk.meta.GetOr(MetaRec(1, 0));
      if meta.next == 0 || meta.next - 1 >= max {
        return false;
      }
      Save(disk.(events := disk.events[meta.next := EventRec(meta.next, payload, Pending)]));
      Save(disk.(meta := Some(meta.(next := meta.next + 1))));
      nextSeq := meta.next + 1;
      ok := true;
    }

    method EmitDuringStart(payloads: seq<ByteString>)
      modifies `disk, `log, `nextSeq
      ensures Now() == EmitAll(old(Now()), payloads)
    {
      ghost var w := Now();
      for i := 0 to |payloads|
        invariant Now() == EmitAll(w, payloads[..i])
      {
        assert payloads[..i + 1][..i] == payloads[..i];
        var ok := EmitEvent(payloads[i]);
      }
      assert payloads[..|payloads|] == payloads;
    }

    // -------------------------------------------------------------------------------- step

    method DoStep(e: StepEnv)
      modifies this
      ensures Now() == Step(old(Now()), e)
    {
      LeaveWaitingState();
      DoPhase(e);
    }

    /** Waiting for a retry or a rollback turns into the work waited for, in memory only. */
    method LeaveWaitingState()
      modifies `vtState, `exState
      ensures Now() == Settle(old(Now()))
    {
      if vtState == RetryPending {
        vtState := PermitPending;
      } else if vtState == RollbackPending {
        exState := Rollback;
        vtState := Executing;
      }
    }

    method DoPhase(e: StepEnv)
      modifies this
      ensures Now() == Dispatch(old(Now()), e)
    {
      match vtState
      case NoTask => DoCheckTask(e);
      case Discovered => DoCheckTask(e);
      case ConsentPending => DoConsent(e);
      case DownloadPending => DoDownload(e);
      case Downloading => DoDownload(e);
      case Ready => DoPermit(e);
      case WaitingWindow => DoPermit(e);
      case PermitPending => DoPermit(e);
      case Executing => DoExecute(e);
      case _ =>
    }

    method DoCheckTask(e: StepEnv)
      modifies `disk, `log, `vtState, `frozenTask
      ensures Now() == CheckTask(old(Now()), e)
    {
      if e.check.None? {
        return;
      }
      match e.check.value
      case NotAccepted => Save(disk.(fullRequired := true));
      case TaskMissing =>
      case TaskFound(task) =>
        frozenTask := task;
        EnterState(Discovered);
        EnterState(if frozenTask.consentRequired then ConsentPending else DownloadPending);
    }

    method DoConsent(e: StepEnv)
      modifies `disk, `log, `vtState
      ensures Now() == Consent(old(Now()), e)
    {
      if e.consent.None? {
        return;
      }
      var reply := e.consent.value;
      Save(disk.(consent := Some(ConsentRec(frozenTask.id, reply.accepted, reply.receiptId))));
      EnterState(if reply.accepted then DownloadPending else Ended);
    }

    method DoDownload(e: StepEnv)
      modifies `disk, `log, `vtState
      ensures Now() == DownloadFrom(old(Now()), e, 0, true)
    {
      ghost var w := Now();
      var allReady := true;
      for i := 0 to |frozenTask.packages|
        invariant frozenTask == w.mem.task
        invariant DownloadFrom(Now(), e, i, allReady) == DownloadFrom(w, e, 0, true)
      {
        var p := frozenTask.packages[i];
        var entry := if p.id in disk.downloads then disk.downloads[p.id]
                     else DownloadRec(p.id, p.revision, "", 0, VerifyPending, "", "", false);
        if !entry.ready {
          var failed, heldBack;
          entry, heldBack, failed := FetchPackage(entry, p, e.package(i));
          if failed {
            vtState := Downloading;
            Save(disk.(downloads := disk.downloads[entry.packageId := entry]));
            return;
          }
          allReady := allReady && !heldBack;
          Save(disk.(downloads := disk.downloads[entry.packageId := entry]));
        }
      }
      EnterState(if allReady then Ready else Downloading);
    }

    /** Grant, download, report, verdict for one package. */
    static method FetchPackage(start: DownloadRec, p: Package, env: PackageEnv)
      returns (entry: DownloadRec, heldBack: bool, failed: bool)
      ensures Fetched(entry, heldBack, failed) == Fetch(start, p, env)
    {
      entry := start;
      if env.grant.None? {
        return entry, true, true;
      }
      var grant := env.grant.value;
      if grant.etag.Some? && grant.etag.value != "" && grant.etag.value != entry.etag {
        entry := entry.(offset := 0, etag := grant.etag.value);
        if grant.packageRevision != "" {
          entry := entry.(packageRevision := grant.packageRevision);
        }
      } else if grant.etag.Some? {
        entry := entry.(etag := grant.etag.value);
      }
      entry := entry.(offset := env.outcome.finalOffset);
      heldBack := false;
      if env.outcome.stage.Some? {
        var stage := env.outcome.stage.value;
        var id := if stage.id == "" then "SR-" + p.id + "-" + Chars(Decimal(entry.offset)) else stage.id;
        if env.stageAccepted.None? {
          return entry, true, true;
        }
        if env.stageAccepted.value && env.outcome.succeeded {
          entry := entry.(verify := VerifySucceeded, ready := true, stageResultId := id, stageResultDigest := stage.digest);
        } else {
          entry := entry.(verify := VerifyFailed, ready := false);
          heldBack := true;
        }
      }
      if !env.outcome.succeeded {
        entry := entry.(verify := VerifyFailed, ready := false);
        heldBack := true;
      }
      failed := false;
    }

    method DoPermit(e: StepEnv)
      modifies `disk, `log, `tally, `vtState, `exState, `permit, `executionId, `attemptNo
      ensures Now() == RequestPermit(old(Now()), e)
    {
      if vtState == Ready {
        EnterState(WaitingWindow);
        return;
      }
      if e.now < frozenTask.startMs || e.now >= frozenTask.endMs {
        return;
      }
      if !e.guards {
        return;
      }
      if e.permit.None? || e.permit.value.None? {
        return;
      }
      Note(GrantOf(e.permit.value.value));
      AcceptPermit(e.permit.value.value);
    }

    /** Everything about the permit is durable before the installer may start. */
    method AcceptPermit(granted: Permit)
      modifies `disk, `log, `vtState, `exState, `permit, `executionId, `attemptNo
      ensures Now() == TakePermit(old(Now()), granted)
    {
      HoldPermit(granted);
      EnterState(Executing);
      StoreExecution();
    }

    method HoldPermit(granted: Permit)
      modifies `exState, `permit, `executionId, `attemptNo
      ensures Memory() == Hold(old(Memory()), granted)
    {
      permit := granted;
      executionId := granted.executionId.GetOr("");
      attemptNo := granted.attemptNo.GetOr(0);
      exState := PermitPersisted;
    }

    method DoExecute(e: StepEnv)
      modifies this
      ensures Now() == Execute(old(Now()), e)
    {
      if exState == PermitPersisted || exState == ExReady {
        if !e.prepared {
          return;
        }
        StartInstaller(e);
        if !e.started {
          return;
        }
        exState := InstallStarted;
        StoreExecution();
      }
      SendOutbox(e);
    }

    method StartInstaller(e: StepEnv)
      modifies `disk, `log, `tally, `nextSeq
      ensures Now() == Start(old(Now()), e)
    {
      Note(StartOf(Now(), e));
      EmitDuringStart(e.emitted);
    }

    /** Report what is not acknowledged yet, in order, then store the watermark. */
    method SendOutbox(e: StepEnv)
      modifies this
      ensures Now() == SendEvents(old(Now()), e)
    {
      var meta := disk.meta.GetOr(MetaRec(1, 0));
      var sendError := SendPending(e, meta.next);
      if meta.accepted < acceptedSeq {
        Save(disk.(meta := Some(meta.(accepted := acceptedSeq))));
      }
      StoreExecution();
      if sendError {
        return;
      }
      DoFinalize(e);
    }

    method SendPending(e: StepEnv, next: nat) returns (sendError: bool)
      modifies `disk, `log, `acceptedSeq
      ensures (Now(), sendError) == SendUpTo(old(Now()), e, next)
    {
      ghost var w := Now();
      sendError := false;
      var s := 1;
      while s < next
        invariant s == 1 || s <= next
        invariant s >= 1 && (Now(), sendError) == SendUpTo(w, e, s)
      {
        var again := SendEvent(e, s);
        sendError := sendError || again;
        s := s + 1;
      }
      assert SendUpTo(w, e, 0) == SendUpTo(w, e, 1) == (w, false);
    }

    method SendEvent(e: StepEnv, s: nat) returns (again: bool)
      modifies `disk, `log, `acceptedSeq
      ensures (Now(), again) == SendOne(old(Now()), e, s)
    {
      again := false;
      if s !in disk.events || disk.events[s].status == Acked {
        return;
      }
      var event := disk.events[s];
      if event.payload == [] {
        event := event.(status := Sent);
      } else if e.report(event.number) == Some(EventAccepted) {
        event := event.(status := Acked);
        acceptedSeq := if acceptedSeq > event.number then acceptedSeq else event.number;
      } else {
        again := true;
      }
      Save(disk.(events := disk.events[event.number := event]));
    }

    method DoFinalize(e: StepEnv)
      modifies `disk, `log, `tally, `vtState, `exState
      ensures Now() == Finalize(old(Now()), e)
    {
      Note(FinalReported(acceptedSeq, exState == Rollback));
      if e.final.None? || !e.final.value.accepted {
        return;
      }
      var reply := e.final.value;
      var rolledBack := exState == Rollback;
      exState := if reply.state == RetryPending then Failed else if rolledBack then RolledBack else Succeeded;
      EnterState(if reply.state == NoTask then Completed else reply.state);
      StoreExecution();
    }

    // ---------------------------------------------------------------------------- controls

    method HandleControl(c: Control) returns (duplicate: bool)
      modifies this
      ensures Now() == ApplyControl(old(Now()), c)
      ensures duplicate == (c.revision in old(disk).controls)
    {
      if c.revision in disk.controls {
        return true;
      }
      Save(disk.(controls := disk.controls[c.revision := ControlRec(c.controlId, c.revision, None)]));
      lastReceivedControlRev := c.revision;
      pendingControlIds := pendingControlIds + [c.controlId];
      Note(ApplyCalled(c.revision));
      if c.applied {
        Confirm(c);
      }
      duplicate := false;
    }

    method Confirm(c: Control)
      modifies `disk, `log, `tally, `ackSeq, `lastAppliedControlRev, `pendingControlIds
      ensures Now() == Acknowledge(old(Now()), c)
    {
      var number := ackSeq;
      ackSeq := ackSeq + 1;
      Save(disk.(controls := disk.controls[c.revision := ControlRec(c.controlId, c.revision, Some(number))]));
      lastAppliedControlRev := c.revision;
      pendingControlIds := RemoveId(pendingControlIds, c.controlId);
      Note(AckSent(number));
    }

    static method RemoveId(ids: seq<Id>, id: Id) returns (kept: seq<Id>)
      ensures kept == Without(ids, id)
    {
      kept := [];
      for i := 0 to |ids|
        invariant kept == Without(ids[..i], id)
      {
        assert ids[..i + 1][..i] == ids[..i];
        if ids[i] != id {
          kept := kept + [ids[i]];
        }
      }
      assert ids[..|ids|] == ids;
    }
  }
}
