/** A history with restarts between operations against the same history without them. */
module OrchestratorTwins {
  import opened Wrappers
  import opened Bytes
  import opened OrchestratorState
  import opened OrchestratorSpec
  import opened OrchestratorInvariants
  import opened OrchestratorHistory
  import opened OrchestratorBoundaries

  // ---------------------------------------------------------------- what a restart may change

  /** Acknowledgement numbers start over with each process; everything else on disk counts. */
  function Unnumbered(r: ControlRec): ControlRec {
    r.(ackNumber := if r.ackNumber.Some? then Some(0) else None)
  }

  function UnnumberedControls(controls: map<nat, ControlRec>): map<nat, ControlRec> {
    map r | r in controls :: Unnumbered(controls[r])
  }

  function UnnumberedDisk(d: Disk): Disk {
    d.(controls := UnnumberedControls(d.controls))
  }

  function UnnumberedMoment(m: Moment): Moment {
    Moment(if m.call.AckSent? then AckSent(0) else m.call, UnnumberedDisk(m.disk), m.tally)
  }

  function UnnumberedLog(log: seq<Moment>): seq<Moment> {
    seq(|log|, i requires 0 <= i < |log| => UnnumberedMoment(log[i]))
  }

  /** Same disk and history up to acknowledgement numbers. */
  ghost predicate SameOutside(a: World, b: World) {
    && UnnumberedDisk(a.disk) == UnnumberedDisk(b.disk)
    && UnnumberedLog(a.log) == UnnumberedLog(b.log)
    && a.tally == b.tally && a.max == b.max
  }

  ghost predicate Twins(a: World, b: World) {
    SameOutside(a, b) && WorkingOf(a.mem) == WorkingOf(b.mem)
  }

  lemma LogsExtend(x: seq<Moment>, y: seq<Moment>, m: Moment, n: Moment)
    requires UnnumberedLog(x) == UnnumberedLog(y) && UnnumberedMoment(m) == UnnumberedMoment(n)
    ensures UnnumberedLog(x + [m]) == UnnumberedLog(y + [n])
  {
    assert |x| == |UnnumberedLog(x)| == |UnnumberedLog(y)| == |y|;
    forall i | 0 <= i < |x|
      ensures UnnumberedMoment((x + [m])[i]) == UnnumberedMoment((y + [n])[i])
    {
      assert UnnumberedLog(x)[i] == UnnumberedLog(y)[i];
    }
  }

  lemma PutSame(a: World, b: World, d: Disk, e: Disk)
    requires SameOutside(a, b) && UnnumberedDisk(d) == UnnumberedDisk(e)
    ensures SameOutside(Put(a, d), Put(b, e))
  {
    LogsExtend(a.log, b.log, Moment(Wrote, d, a.tally), Moment(Wrote, e, b.tally));
  }

  lemma SaySame(a: World, b: World, call: Call, again: Call)
    requires SameOutside(a, b) && (call == again || (call.AckSent? && again.AckSent?))
    ensures SameOutside(Say(a, call), Say(b, again))
  {
    LogsExtend(a.log, b.log, Moment(call, a.disk, Counted(a.tally, call)), Moment(again, b.disk, Counted(b.tally, again)));
  }

  /** Memories that agree on everything a step reads. */
  predicate SameMem(m: Mem, n: Mem) {
    && m.vt == n.vt && m.ex == n.ex && m.task == n.task && m.executionId == n.executionId && m.attemptNo == n.attemptNo
    && PermitRead(m.permit) == PermitRead(n.permit) && m.next == n.next && m.accepted == n.accepted
  }

  ghost predicate Same(a: World, b: World) {
    SameOutside(a, b) && SameMem(a.mem, b.mem)
  }

  lemma SameAreTwins(a: World, b: World)
    requires Same(a, b)
    ensures Twins(a, b)
  {
  }

  // --------------------------------------------------------------------------- operations

  lemma MoveToSame(a: World, b: World, vt: VtState)
    requires SameOutside(a, b) && SameMem(a.mem.(vt := vt), b.mem.(vt := vt))
    ensures Same(MoveTo(a, vt), MoveTo(b, vt))
  {
    PutSame(a, b, MoveTo(a, vt).disk, MoveTo(b, vt).disk);
  }

  lemma PersistExecutionSame(a: World, b: World)
    requires Same(a, b)
    ensures Same(PersistExecution(a), PersistExecution(b))
  {
    var a1 := Put(a, a.disk.(execution := Some(ExecutionOf(a.mem))));
    var b1 := Put(b, b.disk.(execution := Some(ExecutionOf(b.mem))));
    PutSame(a, b, a1.disk, b1.disk);
    PutSame(a1, b1, PersistExecution(a).disk, PersistExecution(b).disk);
  }

  lemma EmitSame(a: World, b: World, payload: ByteString)
    requires Same(a, b)
    ensures Same(Emit(a, payload), Emit(b, payload))
  {
    if !OutboxFull(a) {
      PutSame(a, b, SaveNewEvent(a, payload).disk, SaveNewEvent(b, payload).disk);
      var a1, b1 := SaveNewEvent(a, payload), SaveNewEvent(b, payload);
      PutSame(a1, b1, SaveNext(a1).disk, SaveNext(b1).disk);
    }
  }

  lemma {:induction false} EmitAllSame(a: World, b: World, payloads: seq<ByteString>)
    requires Same(a, b)
    ensures Same(EmitAll(a, payloads), EmitAll(b, payloads))
    decreases |payloads|
  {
    if payloads != [] {
      var n := |payloads| - 1;
      EmitAllSame(a, b, payloads[..n]);
      EmitSame(EmitAll(a, payloads[..n]), EmitAll(b, payloads[..n]), payloads[n]);
    }
  }

  lemma FreezeSame(a: World, b: World, task: Task)
    requires Same(a, b)
    ensures Same(Freeze(a, task), Freeze(b, task))
  {
    PutSame(a, b, Freeze(a, task).disk, Freeze(b, task).disk);
  }

  lemma CheckTaskSame(a: World, b: World, e: StepEnv)
    requires Same(a, b)
    ensures Same(CheckTask(a, e), CheckTask(b, e))
  {
    match e.check
    case None =>
    case Some(NotAccepted) => PutSame(a, b, a.disk.(fullRequired := true), b.disk.(fullRequired := true));
    case Some(TaskMissing) =>
    case Some(TaskFound(task)) =>
      FreezeSame(a, b, task);
      MoveToSame(Freeze(a, task), Freeze(b, task), if task.consentRequired then ConsentPending else DownloadPending);
  }

  lemma ConsentSame(a: World, b: World, e: StepEnv)
    requires Same(a, b)
    ensures Same(Consent(a, e), Consent(b, e))
  {
    match e.consent
    case None =>
    case Some(reply) =>
      PutSame(a, b, SaveConsent(a, reply).disk, SaveConsent(b, reply).disk);
      MoveToSame(SaveConsent(a, reply), SaveConsent(b, reply), if reply.accepted then DownloadPending else Ended);
  }

  /** Downloading does not look at the state in memory, and leaves the same one. */
  ghost predicate SameButState(a: World, b: World) {
    SameOutside(a, b) && SameMem(a.mem.(vt := Downloading), b.mem.(vt := Downloading))
  }

  lemma SaveDownloadSame(a: World, b: World, entry: DownloadRec)
    requires SameOutside(a, b)
    ensures SameOutside(SaveDownload(a, entry), SaveDownload(b, entry))
  {
    PutSame(a, b, SaveDownload(a, entry).disk, SaveDownload(b, entry).disk);
  }

  lemma {:induction false} DownloadSame(a: World, b: World, e: StepEnv, i: nat, allReady: bool)
    requires SameButState(a, b) && i <= |a.mem.task.packages|
    ensures Same(DownloadFrom(a, e, i, allReady), DownloadFrom(b, e, i, allReady))
    decreases |a.mem.task.packages| - i
  {
    if i == |a.mem.task.packages| {
      MoveToSame(a, b, if allReady then Ready else Downloading);
    } else {
      var p := a.mem.task.packages[i];
      var entry := DownloadEntry(a.disk, p);
      assert entry == DownloadEntry(b.disk, p);
      if entry.ready {
        DownloadSame(a, b, e, i + 1, allReady);
      } else {
        var f := Fetch(entry, p, e.package(i));
        SaveDownloadSame(a, b, f.entry);
        if f.failed {
          SaveDownloadSame(a.(mem := a.mem.(vt := Downloading)), b.(mem := b.mem.(vt := Downloading)), f.entry);
        } else {
          DownloadSame(SaveDownload(a, f.entry), SaveDownload(b, f.entry), e, i + 1, allReady && !f.heldBack);
        }
      }
    }
  }

  lemma TakePermitSame(a: World, b: World, permit: Permit)
    requires Same(a, b)
    ensures Same(TakePermit(a, permit), TakePermit(b, permit))
  {
    var m := Hold(a.mem, permit);
    var n := Hold(b.mem, permit);
    MoveToSame(a.(mem := m), b.(mem := n), Executing);
    PersistExecutionSame(MoveTo(a.(mem := m), Executing), MoveTo(b.(mem := n), Executing));
  }

  lemma RequestPermitSame(a: World, b: World, e: StepEnv)
    requires Same(a, b)
    ensures Same(RequestPermit(a, e), RequestPermit(b, e))
  {
    if a.mem.vt == Ready {
      MoveToSame(a, b, WaitingWindow);
    } else if e.permit.Some? && e.permit.value.Some? {
      var permit := e.permit.value.value;
      SaySame(a, b, GrantOf(permit), GrantOf(permit));
      TakePermitSame(Say(a, GrantOf(permit)), Say(b, GrantOf(permit)), permit);
    }
  }

  lemma SaveEventSame(a: World, b: World, event: EventRec)
    requires Same(a, b)
    ensures Same(SaveEvent(a, event), SaveEvent(b, event))
  {
    PutSame(a, b, SaveEvent(a, event).disk, SaveEvent(b, event).disk);
  }

  lemma SendOneSame(a: World, b: World, e: StepEnv, s: nat)
    requires Same(a, b)
    ensures Same(SendOne(a, e, s).0, SendOne(b, e, s).0) && SendOne(a, e, s).1 == SendOne(b, e, s).1
  {
    assert a.disk.events == b.disk.events;
    if s in a.disk.events && a.disk.events[s].status != Acked {
      var event := a.disk.events[s];
      var accepted := if event.payload != [] && e.report(event.number) == Some(EventAccepted)
                      then Later(a.mem.accepted, event.number) else a.mem.accepted;
      var status := if event.payload == [] then Sent
                    else if e.report(event.number) == Some(EventAccepted) then Acked else event.status;
      SaveEventSame(a.(mem := a.mem.(accepted := accepted)), b.(mem := b.mem.(accepted := accepted)), event.(status := status));
    }
  }

  lemma {:induction false} SendUpToSame(a: World, b: World, e: StepEnv, upTo: nat)
    requires Same(a, b)
    ensures Same(SendUpTo(a, e, upTo).0, SendUpTo(b, e, upTo).0) && SendUpTo(a, e, upTo).1 == SendUpTo(b, e, upTo).1
    decreases upTo
  {
    if upTo > 1 {
      SendUpToSame(a, b, e, upTo - 1);
      SendOneSame(SendUpTo(a, e, upTo - 1).0, SendUpTo(b, e, upTo - 1).0, e, upTo - 1);
    }
  }

  lemma FinalizeSame(a: World, b: World, e: StepEnv)
    requires Same(a, b)
    ensures Same(Finalize(a, e), Finalize(b, e))
  {
    SaySame(a, b, ReportOf(a.mem), ReportOf(b.mem));
    if e.final.Some? && e.final.value.accepted {
      ConcludeSame(Say(a, ReportOf(a.mem)), Say(b, ReportOf(b.mem)), e.final.value);
    }
  }

  lemma ConcludeSame(a: World, b: World, reply: FinalReply)
    requires Same(a, b)
    ensures Same(Conclude(a, reply), Conclude(b, reply))
  {
    var ex := if reply.state == RetryPending then Failed else if a.mem.ex == Rollback then RolledBack else Succeeded;
    var vt := if reply.state == NoTask then Completed else reply.state;
    var a1, b1 := a.(mem := a.mem.(ex := ex)), b.(mem := b.mem.(ex := ex));
    MoveToSame(a1, b1, vt);
    PersistExecutionSame(MoveTo(a1, vt), MoveTo(b1, vt));
  }

  lemma SendEventsSame(a: World, b: World, e: StepEnv)
    requires Same(a, b)
    ensures Same(SendEvents(a, e), SendEvents(b, e))
  {
    var meta := MetaOf(a.disk.meta);
    assert meta == MetaOf(b.disk.meta);
    SendUpToSame(a, b, e, meta.next);
    var (a1, again) := SendUpTo(a, e, meta.next);
    var b1 := SendUpTo(b, e, meta.next).0;
    var behind := meta.accepted < a1.mem.accepted;
    var a2 := if behind then Put(a1, a1.disk.(meta := Some(meta.(accepted := a1.mem.accepted)))) else a1;
    var b2 := if behind then Put(b1, b1.disk.(meta := Some(meta.(accepted := b1.mem.accepted)))) else b1;
    if behind {
      PutSame(a1, b1, a2.disk, b2.disk);
    }
    PersistExecutionSame(a2, b2);
    if !again {
      FinalizeSame(PersistExecution(a2), PersistExecution(b2), e);
    }
  }

  lemma ExecuteSame(a: World, b: World, e: StepEnv)
    requires Same(a, b)
    ensures Same(Execute(a, e), Execute(b, e))
  {
    if !NotYetStarted(a.mem.ex) {
      SendEventsSame(a, b, e);
    } else if e.prepared {
      SaySame(a, b, StartOf(a, e), StartOf(b, e));
      var a0, b0 := Say(a, StartOf(a, e)), Say(b, StartOf(b, e));
      EmitAllSame(a0, b0, e.emitted);
      if e.started {
        var a1, b1 := EmitAll(a0, e.emitted), EmitAll(b0, e.emitted);
        var a2, b2 := a1.(mem := a1.mem.(ex := InstallStarted)), b1.(mem := b1.mem.(ex := InstallStarted));
        PersistExecutionSame(a2, b2);
        SendEventsSame(PersistExecution(a2), PersistExecution(b2), e);
      }
    }
  }

  // ------------------------------------------------------------------------------- twins

  predicate IsDownloading(vt: VtState) {
    vt == DownloadPending || vt == Downloading
  }

  lemma PhasesSettle(m: Mem, n: Mem)
    requires Phase(m.vt, m.ex) == Phase(n.vt, n.ex)
    ensures IsDownloading(m.vt) == IsDownloading(n.vt)
    ensures IsDownloading(m.vt) ==> m.ex == n.ex
    ensures !IsDownloading(m.vt) ==> SettleMem(m).vt == SettleMem(n).vt && SettleMem(m).ex == SettleMem(n).ex
  {
  }

  lemma MemsSettle(m: Mem, n: Mem)
    requires WorkingOf(m) == WorkingOf(n)
    ensures if IsDownloading(m.vt) then IsDownloading(n.vt) && SameMem(m.(vt := Downloading), n.(vt := Downloading))
            else !IsDownloading(n.vt) && SameMem(SettleMem(m), SettleMem(n))
  {
    PhasesSettle(m, n);
    SamePermit(m, n);
  }

  lemma TwinsSettle(a: World, b: World)
    requires Twins(a, b)
    ensures if IsDownloading(a.mem.vt) then IsDownloading(b.mem.vt) && SameButState(a, b)
            else !IsDownloading(b.mem.vt) && Same(Settle(a), Settle(b))
  {
    MemsSettle(a.mem, b.mem);
  }

  lemma SamePermit(m: Mem, n: Mem)
    requires ExecutionOf(m.(ex := PermitPersisted)) == ExecutionOf(n.(ex := PermitPersisted))
    ensures forall ex :: ExecutionOf(m.(ex := ex)) == ExecutionOf(n.(ex := ex))
    ensures m.ex == n.ex ==> ExecutionOf(m) == ExecutionOf(n)
  {
  }

  lemma DispatchSame(a: World, b: World, e: StepEnv)
    requires Same(a, b) && !IsDownloading(a.mem.vt)
    ensures Same(Dispatch(a, e), Dispatch(b, e))
  {
    match a.mem.vt
    case NoTask => CheckTaskSame(a, b, e);
    case Discovered => CheckTaskSame(a, b, e);
    case ConsentPending => ConsentSame(a, b, e);
    case Ready => RequestPermitSame(a, b, e);
    case WaitingWindow => RequestPermitSame(a, b, e);
    case PermitPending => RequestPermitSame(a, b, e);
    case Executing => ExecuteSame(a, b, e);
    case _ =>
  }

  /** From twins the next step does the same things and ends in twins. */
  lemma StepTwins(a: World, b: World, e: StepEnv)
    requires Twins(a, b)
    ensures Twins(Step(a, e), Step(b, e))
  {
    TwinsSettle(a, b);
    if IsDownloading(a.mem.vt) {
      DownloadSame(a, b, e, 0, true);
      assert Step(a, e) == DownloadFrom(a, e, 0, true) && Step(b, e) == DownloadFrom(b, e, 0, true);
      SameAreTwins(Step(a, e), Step(b, e));
    } else {
      DispatchSame(Settle(a), Settle(b), e);
      SameAreTwins(Step(a, e), Step(b, e));
    }
  }

  lemma EmitTwins(a: World, b: World, payload: ByteString)
    requires Twins(a, b)
    ensures Twins(Emit(a, payload), Emit(b, payload))
  {
    if !OutboxFull(a) {
      PutSame(a, b, SaveNewEvent(a, payload).disk, SaveNewEvent(b, payload).disk);
      var a1, b1 := SaveNewEvent(a, payload), SaveNewEvent(b, payload);
      PutSame(a1, b1, SaveNext(a1).disk, SaveNext(b1).disk);
    }
  }

  lemma UnnumberedUpdate(x: map<nat, ControlRec>, y: map<nat, ControlRec>, r: ControlRec, q: ControlRec)
    requires UnnumberedControls(x) == UnnumberedControls(y)
    requires r.revision == q.revision && Unnumbered(r) == Unnumbered(q)
    ensures UnnumberedControls(x[r.revision := r]) == UnnumberedControls(y[q.revision := q])
  {
    assert UnnumberedControls(x[r.revision := r]) == UnnumberedControls(x)[r.revision := Unnumbered(r)];
    assert UnnumberedControls(y[q.revision := q]) == UnnumberedControls(y)[q.revision := Unnumbered(q)];
  }

  lemma SaveControlTwins(a: World, b: World, r: ControlRec, q: ControlRec)
    requires Twins(a, b) && r.revision == q.revision && Unnumbered(r) == Unnumbered(q)
    ensures Twins(SaveControl(a, r), SaveControl(b, q))
  {
    UnnumberedUpdate(a.disk.controls, b.disk.controls, r, q);
    PutSame(a, b, SaveControl(a, r).disk, SaveControl(b, q).disk);
  }

  lemma AcknowledgeTwins(a: World, b: World, c: Control)
    requires Twins(a, b)
    ensures Twins(Acknowledge(a, c), Acknowledge(b, c))
  {
    SaveControlTwins(a, b, ControlRec(c.controlId, c.revision, Some(a.mem.ackSeq)),
                     ControlRec(c.controlId, c.revision, Some(b.mem.ackSeq)));
    SaySame(TakeAck(a, c), TakeAck(b, c), AckSent(a.mem.ackSeq), AckSent(b.mem.ackSeq));
  }

  lemma ApplyControlTwins(a: World, b: World, c: Control)
    requires Twins(a, b)
    ensures Twins(ApplyControl(a, c), ApplyControl(b, c))
  {
    assert c.revision in a.disk.controls <==> c.revision in b.disk.controls by {
      assert c.revision in UnnumberedControls(a.disk.controls) <==> c.revision in UnnumberedControls(b.disk.controls);
    }
    if c.revision !in a.disk.controls {
      var r := ControlRec(c.controlId, c.revision, None);
      SaveControlTwins(a, b, r, r);
      SaySame(Receive(a, c), Receive(b, c), ApplyCalled(c.revision), ApplyCalled(c.revision));
      if c.applied {
        AcknowledgeTwins(Say(Receive(a, c), ApplyCalled(c.revision)), Say(Receive(b, c), ApplyCalled(c.revision)), c);
      }
    }
  }

  lemma PerformTwins(a: World, b: World, op: Op)
    requires Twins(a, b)
    ensures Twins(Perform(a, op), Perform(b, op))
  {
    match op
    case StepOp(env) => StepTwins(a, b, env);
    case EmitOp(payload) => EmitTwins(a, b, payload);
    case ControlOp(control) => ApplyControlTwins(a, b, control);
  }

  /** The same actions with every restart left out. */
  function WithoutRestarts(actions: seq<Action>): seq<Action> {
    if actions == [] then [] else
    (if actions[0].RestartNow? then [] else [actions[0]]) + WithoutRestarts(actions[1..])
  }

  ghost predicate Paired(a: World, b: World) {
    Inv(a) && Agrees(a) && Twins(a, b)
  }

  lemma RestartPairs(a: World, b: World)
    requires Paired(a, b)
    ensures Paired(Restart(a), b)
  {
    RestartRestores(a);
    RestartAgrees(a);
  }

  lemma OperationPairs(a: World, b: World, op: Op)
    requires Paired(a, b) && OpOK(op)
    ensures Paired(Perform(a, op), Perform(b, op))
  {
    PerformKeeps(a, op);
    PerformSteady(a, op, false);
    PerformTwins(a, b, op);
  }

  lemma WithoutOneRestart(b: World, actions: seq<Action>)
    requires actions != []
    ensures History(b, WithoutRestarts(actions))
         == History(if actions[0].RestartNow? then b else Act(b, actions[0]), WithoutRestarts(actions[1..]))
  {
    var rest := WithoutRestarts(actions[1..]);
    if actions[0].RestartNow? {
      assert WithoutRestarts(actions) == rest;
    } else {
      assert WithoutRestarts(actions) == [actions[0]] + rest && ([actions[0]] + rest)[1..] == rest;
      HistoryStarts(b, [actions[0]] + rest);
    }
  }

  lemma {:induction false} TwinHistories(a: World, b: World, actions: seq<Action>)
    requires Paired(a, b) && BetweenOnly(actions)
    ensures Paired(History(a, actions), History(b, WithoutRestarts(actions)))
    decreases |actions|
  {
    if actions != [] {
      WithoutOneRestart(b, actions);
      if actions[0].RestartNow? {
        RestartPairs(a, b);
        TwinHistories(Restart(a), b, actions[1..]);
      } else {
        OperationPairs(a, b, actions[0].op);
        TwinHistories(Perform(a, actions[0].op), Perform(b, actions[0].op), actions[1..]);
      }
    }
  }

  /** Restarts between operations are invisible: with them or without, a history writes the
      same records, makes the same calls and ends in the same phase on the same data, up to
      the numbers of control acknowledgements. */
  lemma RestartsAreInvisible(max: nat, actions: seq<Action>)
    requires BetweenOnly(actions)
    ensures Twins(History(First(max), actions), History(First(max), WithoutRestarts(actions)))
  {
    FirstIsSound(max);
    FirstIsSteady(max);
    TwinHistories(First(max), First(max), actions);
  }
}
