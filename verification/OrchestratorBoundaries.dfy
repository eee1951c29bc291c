/** What holds between operations: memory and disk agree, wherever earlier processes stopped. */
module OrchestratorBoundaries {
  import opened Wrappers
  import opened Bytes
  import opened OrchestratorState
  import opened OrchestratorSpec
  import opened OrchestratorSegments
  import opened OrchestratorInvariants
  import opened OrchestratorHistory

  // ------------------------------------------------------------- memory agrees with the disk

  /** The permit held says which execution and attempt it is for. */
  predicate PermitMatches(m: Mem) {
    m.executionId == m.permit.executionId.GetOr("") && m.attemptNo == m.permit.attemptNo.GetOr(0)
  }

  predicate ExecutionAgrees(m: Mem, r: Option<ExecutionRec>) {
    && PermitMatches(m)
    && match r
       case None => m.ex == PermitPersisted && m.permit == NO_PERMIT
       case Some(e) => e == ExecutionOf(m)
  }

  predicate CountersAgree(m: Mem, meta: Option<MetaRec>) {
    MetaOf(meta) == MetaRec(m.next, m.accepted)
  }

  /** Only a rollback executes while the stored state still waits for it. */
  predicate TaskAgrees(m: Mem, r: Option<VehicleTaskRec>) {
    match r
    case None => m.task == DEFAULT_TASK
    case Some(v) => v.state == RollbackPending && m.vt == Executing ==> m.ex == Rollback
  }

  predicate Agrees(w: World) {
    && ExecutionAgrees(w.mem, w.disk.execution)
    && CountersAgree(w.mem, w.disk.meta)
    && TaskAgrees(w.mem, w.disk.task)
  }

  /** Acknowledged events have a payload and are within the watermark held in memory. */
  ghost predicate Covered(events: map<nat, EventRec>, next: nat, accepted: nat) {
    forall s: nat :: 1 <= s < next && s in events && events[s].status == Acked ==> s <= accepted && events[s].payload != []
  }

  /** Memory and disk agree; and, if it is claimed, the watermark covers the acknowledged
      events, which only a stop inside an operation can change. */
  ghost predicate Steady(w: World, covered: bool) {
    Agrees(w) && (covered ==> Covered(w.disk.events, w.mem.next, w.mem.accepted))
  }

  // --------------------------------------------------------------------------- operations

  lemma MoveToSteady(w: World, vt: VtState, covered: bool)
    requires Steady(w, covered) && w.mem.task != DEFAULT_TASK
    ensures Steady(MoveTo(w, vt), covered)
  {
  }

  /** After this pair of writes memory and disk agree, whatever was there before. */
  lemma PersistExecutionSteady(w: World, covered: bool)
    requires covered ==> Covered(w.disk.events, w.mem.next, w.mem.accepted)
    requires PermitMatches(w.mem) && TaskAgrees(w.mem, w.disk.task)
    ensures Steady(PersistExecution(w), covered)
  {
  }

  lemma NewEventIsCovered(events: map<nat, EventRec>, next: nat, accepted: nat, payload: ByteString)
    requires Covered(events, next, accepted)
    ensures Covered(events[next := EventRec(next, payload, Pending)], next + 1, accepted)
  {
  }

  /** Emitting does not look at the execution. */
  ghost predicate Emitting(w: World, covered: bool) {
    && PermitMatches(w.mem) && CountersAgree(w.mem, w.disk.meta) && TaskAgrees(w.mem, w.disk.task)
    && (covered ==> Covered(w.disk.events, w.mem.next, w.mem.accepted))
  }

  lemma EmitSteady(w: World, payload: ByteString, covered: bool)
    requires Emitting(w, covered)
    ensures Emitting(Emit(w, payload), covered)
    ensures Emit(w, payload).disk.execution == w.disk.execution
    ensures Emit(w, payload).mem == w.mem.(next := Emit(w, payload).mem.next)
  {
    if covered && !OutboxFull(w) {
      NewEventIsCovered(w.disk.events, w.mem.next, w.mem.accepted, payload);
    }
  }

  lemma {:induction false} EmitAllSteady(w: World, payloads: seq<ByteString>, covered: bool)
    requires Emitting(w, covered)
    ensures Emitting(EmitAll(w, payloads), covered)
    ensures EmitAll(w, payloads).disk.execution == w.disk.execution
    ensures EmitAll(w, payloads).mem == w.mem.(next := EmitAll(w, payloads).mem.next)
    decreases |payloads|
  {
    if payloads != [] {
      var n := |payloads| - 1;
      EmitAllSteady(w, payloads[..n], covered);
      EmitSteady(EmitAll(w, payloads[..n]), payloads[n], covered);
    }
  }

  lemma CheckTaskSteady(w: World, e: StepEnv, covered: bool)
    requires Steady(w, covered) && EnvOK(e)
    ensures Steady(CheckTask(w, e), covered)
  {
    match e.check
    case None =>
    case Some(NotAccepted) =>
    case Some(TaskMissing) =>
    case Some(TaskFound(task)) =>
      assert Steady(Freeze(w, task), covered);
      MoveToSteady(Freeze(w, task), if task.consentRequired then ConsentPending else DownloadPending, covered);
  }

  lemma ConsentSteady(w: World, e: StepEnv, covered: bool)
    requires Steady(w, covered) && w.mem.task != DEFAULT_TASK
    ensures Steady(Consent(w, e), covered)
  {
    match e.consent
    case None =>
    case Some(reply) =>
      MoveToSteady(SaveConsent(w, reply), if reply.accepted then DownloadPending else Ended, covered);
  }

  lemma {:induction false} DownloadSteady(w: World, e: StepEnv, i: nat, allReady: bool, covered: bool)
    requires Steady(w, covered) && w.mem.task != DEFAULT_TASK && i <= |w.mem.task.packages|
    ensures Steady(DownloadFrom(w, e, i, allReady), covered)
    decreases |w.mem.task.packages| - i
  {
    if i == |w.mem.task.packages| {
      MoveToSteady(w, if allReady then Ready else Downloading, covered);
    } else {
      var p := w.mem.task.packages[i];
      var entry := DownloadEntry(w.disk, p);
      if entry.ready {
        DownloadSteady(w, e, i + 1, allReady, covered);
      } else {
        var f := Fetch(entry, p, e.package(i));
        if !f.failed {
          DownloadSteady(SaveDownload(w, f.entry), e, i + 1, allReady && !f.heldBack, covered);
        }
      }
    }
  }

  lemma RequestPermitSteady(w: World, e: StepEnv, covered: bool)
    requires Steady(w, covered) && w.mem.task != DEFAULT_TASK
    ensures Steady(RequestPermit(w, e), covered)
  {
    if w.mem.vt == Ready {
      MoveToSteady(w, WaitingWindow, covered);
    } else if e.permit.Some? && e.permit.value.Some? {
      var permit := e.permit.value.value;
      var v := Say(w, GrantOf(permit));
      PersistExecutionSteady(MoveTo(v.(mem := Hold(v.mem, permit)), Executing), covered);
    }
  }

  // ---------------------------------------------------------------------------- execution

  /** What sending needs of memory and disk. */
  ghost predicate Sending(w: World, covered: bool) {
    && Inv(w) && PermitMatches(w.mem) && TaskAgrees(w.mem, w.disk.task)
    && (covered ==> Covered(w.disk.events, w.mem.next, w.mem.accepted))
  }

  lemma StatusIsCovered(events: map<nat, EventRec>, next: nat, accepted: nat, s: nat, status: SendStatus)
    requires Covered(events, next, accepted) && s in events && 1 <= s < next
    requires status == Acked ==> events[s].payload != []
    ensures Covered(events[s := events[s].(status := status)], next, if status == Acked then Later(accepted, s) else accepted)
  {
  }

  lemma SendOneSteady(w: World, e: StepEnv, s: nat, covered: bool)
    requires Sending(w, covered) && 1 <= s < w.mem.next
    ensures var v := SendOne(w, e, s).0;
            && Sending(v, covered) && v.mem == w.mem.(accepted := v.mem.accepted) && v.disk.task == w.disk.task
  {
    SendOneKeeps(w, e, s);
    assert s in w.disk.events && w.disk.events[s].number == s;
    var event := w.disk.events[s];
    if covered && event.status != Acked {
      var status := if event.payload == [] then Sent else if e.report(s) == Some(EventAccepted) then Acked else event.status;
      StatusIsCovered(w.disk.events, w.mem.next, w.mem.accepted, s, status);
    }
  }

  lemma {:induction false} SendUpToSteady(w: World, e: StepEnv, upTo: nat, covered: bool)
    requires Sending(w, covered) && upTo <= w.mem.next
    ensures var v := SendUpTo(w, e, upTo).0;
            && Sending(v, covered) && v.mem == w.mem.(accepted := v.mem.accepted) && v.disk.task == w.disk.task
    decreases upTo
  {
    if upTo > 1 {
      SendUpToSteady(w, e, upTo - 1, covered);
      SendOneSteady(SendUpTo(w, e, upTo - 1).0, e, upTo - 1, covered);
    }
  }

  lemma CloseSteady(w: World, ex: ExState, vt: VtState, covered: bool)
    requires Steady(w, covered) && w.mem.task != DEFAULT_TASK && !NotYetStarted(ex)
    ensures Steady(Close(w, ex, vt), covered)
  {
    PersistExecutionSteady(MoveTo(w.(mem := w.mem.(ex := ex)), vt), covered);
  }

  lemma FinalizeSteady(w: World, e: StepEnv, covered: bool)
    requires Steady(w, covered) && w.mem.task != DEFAULT_TASK
    ensures Steady(Finalize(w, e), covered)
  {
    var w1 := Say(w, ReportOf(w.mem));
    if e.final.Some? && e.final.value.accepted {
      var reply := e.final.value;
      var ex := if reply.state == RetryPending then Failed else if w.mem.ex == Rollback then RolledBack else Succeeded;
      CloseSteady(w1, ex, if reply.state == NoTask then Completed else reply.state, covered);
      assert Finalize(w, e) == Conclude(w1, reply);
    }
  }

  /** The events sent, the watermark and the execution stored. */
  lemma SentAllSteady(w: World, e: StepEnv, covered: bool)
    requires Sending(w, covered)
    ensures var v := SentAll(w, e);
            && Steady(v, covered) && Inv(v) && v.mem == w.mem.(accepted := v.mem.accepted)
            && v.disk.events == SendUpTo(w, e, w.mem.next).0.disk.events
            && v.mem.accepted == SendUpTo(w, e, w.mem.next).0.mem.accepted
            && (!SendUpTo(w, e, w.mem.next).1 ==> AllSettled(v.disk.events, v.mem.next))
  {
    var meta := MetaOf(w.disk.meta);
    SendUpToKeeps(w, e, meta.next);
    SendUpToSteady(w, e, meta.next, covered);
    var w1 := SendUpTo(w, e, meta.next).0;
    var w2 := SaveWatermark(meta, w1);
    if meta.accepted < w1.mem.accepted {
      SaveMetaKeeps(w1, w1.mem.accepted);
    }
    PersistExecutionKeeps(w2);
    PersistExecutionSteady(w2, covered);
  }

  lemma SendEventsSteady(w: World, e: StepEnv, covered: bool)
    requires Sending(w, covered) && w.mem.vt == Executing
    ensures Steady(SendEvents(w, e), covered)
  {
    SendEventsInParts(w, e);
    SentAllSteady(w, e, covered);
    TaskIsReal(w);
    FinalizeSteady(SentAll(w, e), e, covered);
  }

  lemma StartIsSound(w: World, e: StepEnv)
    requires Inv(w) && w.mem.vt == Executing
    ensures Inv(Start(w, e))
  {
    StartKeeps(w, e);
    EmitAllKeeps(Say(w, StartOf(w, e)), e.emitted);
  }

  lemma StartIsEmitting(w: World, e: StepEnv, covered: bool)
    requires Steady(w, covered)
    ensures var w1 := Start(w, e);
            && Emitting(w1, covered) && w1.mem == w.mem.(next := w1.mem.next) && w1.disk.execution == w.disk.execution
  {
    EmitAllSteady(Say(w, StartOf(w, e)), e.emitted, covered);
  }

  /** The world in which the events are sent: right after the start, if there is one. */
  function SendingWorld(w: World, e: StepEnv): World {
    if NotYetStarted(w.mem.ex) then RecordStart(Start(w, e)) else w
  }

  lemma StartedIsSending(w: World, e: StepEnv, covered: bool)
    requires Inv(w) && Steady(w, covered) && w.mem.vt == Executing && NotYetStarted(w.mem.ex)
    ensures Sending(SendingWorld(w, e), covered) && SendingWorld(w, e).mem.vt == Executing
  {
    StartIsSound(w, e);
    StartIsEmitting(w, e, covered);
    RecordIsSending(Start(w, e), covered);
  }

  lemma RecordIsSending(w: World, covered: bool)
    requires Inv(w) && Emitting(w, covered) && w.mem.vt == Executing && NotYetStarted(w.mem.ex)
    ensures Sending(RecordStart(w), covered) && RecordStart(w).mem.vt == Executing
  {
    var v := w.(mem := w.mem.(ex := InstallStarted));
    RecordIsDue(w, covered);
    PersistExecutionKeeps(v);
    PersistExecutionSteady(v, covered);
  }

  lemma RecordIsDue(w: World, covered: bool)
    requires Inv(w) && Emitting(w, covered) && NotYetStarted(w.mem.ex)
    ensures var v := w.(mem := w.mem.(ex := InstallStarted)); Inv(v) && Emitting(v, covered)
  {
  }

  lemma ExecuteSteady(w: World, e: StepEnv, covered: bool)
    requires Inv(w) && w.mem.vt == Executing
    requires if NotYetStarted(w.mem.ex) then Steady(w, covered) else Sending(w, covered)
    ensures Steady(Execute(w, e), covered)
  {
    if !NotYetStarted(w.mem.ex) {
      SendEventsSteady(w, e, covered);
    } else if e.prepared {
      if e.started {
        StartedIsSending(w, e, covered);
        SendEventsSteady(SendingWorld(w, e), e, covered);
      } else {
        StartIsEmitting(w, e, covered);
      }
    }
  }

  // --------------------------------------------------------------------- whole operations

  lemma ApplyControlSteady(w: World, c: Control, covered: bool)
    requires Steady(w, covered)
    ensures Steady(ApplyControl(w, c), covered)
  {
  }

  /** The world a step works in, after a waiting state has been settled. */
  lemma SettledSteady(w: World, covered: bool)
    requires Inv(w) && Steady(w, covered)
    ensures Inv(Settle(w)) && (w.mem.vt == RollbackPending || Steady(Settle(w), covered))
    ensures Settle(w).mem.vt == Executing ==> Sending(Settle(w), covered)
  {
  }

  lemma PreparingSteady(w: World, e: StepEnv, covered: bool)
    requires Inv(w) && Steady(w, covered) && EnvOK(e) && Prepares(w.mem.vt)
    ensures Steady(Dispatch(w, e), covered)
  {
    if w.mem.vt == NoTask || w.mem.vt == Discovered {
      CheckTaskSteady(w, e, covered);
    } else {
      TaskIsReal(w);
      if w.mem.vt == ConsentPending {
        ConsentSteady(w, e, covered);
      } else {
        DownloadSteady(w, e, 0, true, covered);
      }
    }
  }

  lemma DispatchSteady(w: World, e: StepEnv, covered: bool)
    requires Inv(w) && Steady(w, covered) && EnvOK(e) && w.mem.vt != Executing
    ensures Steady(Dispatch(w, e), covered)
  {
    if Prepares(w.mem.vt) {
      PreparingSteady(w, e, covered);
    } else if AwaitsPermit(w.mem.vt) && w.mem.vt != RetryPending {
      TaskIsReal(w);
      RequestPermitSteady(w, e, covered);
      DispatchRequests(w, e);
    } else {
      DispatchRests(w, e);
    }
  }

  lemma DispatchRequests(w: World, e: StepEnv)
    requires AwaitsPermit(w.mem.vt) && w.mem.vt != RetryPending
    ensures Dispatch(w, e) == RequestPermit(w, e)
  {
  }

  lemma DispatchRests(w: World, e: StepEnv)
    requires !Prepares(w.mem.vt) && !(AwaitsPermit(w.mem.vt) && w.mem.vt != RetryPending) && w.mem.vt != Executing
    ensures Dispatch(w, e) == w
  {
  }

  lemma DispatchExecutes(w: World, e: StepEnv)
    requires w.mem.vt == Executing
    ensures Dispatch(w, e) == Execute(w, e)
  {
  }

  lemma StepSteady(w: World, e: StepEnv, covered: bool)
    requires Inv(w) && Steady(w, covered) && EnvOK(e)
    ensures Steady(Step(w, e), covered)
  {
    SettledSteady(w, covered);
    var v := Settle(w);
    if v.mem.vt == Executing {
      ExecuteSteady(v, e, covered);
      DispatchExecutes(v, e);
    } else {
      DispatchSteady(v, e, covered);
    }
    assert Step(w, e) == Dispatch(v, e);
  }

  lemma PerformSteady(w: World, op: Op, covered: bool)
    requires Inv(w) && Steady(w, covered) && OpOK(op)
    ensures Steady(Perform(w, op), covered)
  {
    match op
    case StepOp(env) => StepSteady(w, env, covered);
    case EmitOp(payload) => EmitSteady(w, payload, covered);
    case ControlOp(control) => ApplyControlSteady(w, control, covered);
  }

  // ----------------------------------------------------------------- restart equivalence

  /** The phase a state leads to: a waiting state counts as the one it turns into. */
  function Phase(vt: VtState, ex: ExState): (VtState, ExState) {
    match vt
    case DownloadPending => (Downloading, ex)
    case RetryPending => (PermitPending, ex)
    case RollbackPending => (Executing, Rollback)
    case _ => (vt, ex)
  }

  /** What a step works on. The control bookkeeping is not persisted and not part of it. */
  datatype Working = Working(
    phase: (VtState, ExState), task: Task, executionId: Id, attemptNo: nat, permit: ExecutionRec, next: nat, accepted: nat)

  function WorkingOf(m: Mem): Working {
    Working(Phase(m.vt, m.ex), m.task, m.executionId, m.attemptNo, PermitRead(m.permit), m.next, m.accepted)
  }

  lemma RestoredReadsTheSame(m: Mem)
    requires PermitMatches(m)
    ensures PermitRead(Restored(ExecutionOf(m))) == PermitRead(m.permit)
  {
  }

  lemma RestoredExecution(m: Mem, blank: Mem, r: Option<ExecutionRec>)
    requires ExecutionAgrees(m, r) && ExecutionAgrees(blank, None)
    ensures var l := LoadExecution(blank, r);
            && l.ex == m.ex && l.executionId == m.executionId && l.attemptNo == m.attemptNo
            && PermitRead(l.permit) == PermitRead(m.permit) && ExecutionAgrees(l, r)
  {
    if r.Some? {
      RestoredReadsTheSame(m);
    }
  }

  /** Dropping the object between operations and loading a new one gives back the frozen task,
      the execution, the permit as it reads, both event numbers and the phase. */
  lemma RestartRestores(w: World)
    requires Inv(w) && Agrees(w)
    ensures WorkingOf(Restart(w).mem) == WorkingOf(w.mem)
  {
    RestoredTask(w);
    RestoredExecution(w.mem, LoadTask(FRESH, w.disk.task), w.disk.execution);
  }

  lemma RestoredTask(w: World)
    requires Inv(w) && Agrees(w)
    ensures var l := LoadTask(FRESH, w.disk.task);
            && Restart(w).mem == LoadCounters(LoadExecution(l, w.disk.execution), w.disk.meta)
            && l.task == w.mem.task && Phase(l.vt, w.mem.ex) == Phase(w.mem.vt, w.mem.ex)
            && ExecutionAgrees(l, None)
  {
  }

  lemma LoadedAgrees(blank: Mem, r: Option<ExecutionRec>)
    requires ExecutionAgrees(blank, None)
    ensures ExecutionAgrees(LoadExecution(blank, r), r)
  {
  }

  /** Whatever disk a process finds, its memory agrees with it once it is loaded. */
  lemma RestartAgrees(w: World)
    requires Sound(w)
    ensures Inv(Restart(w)) && Agrees(Restart(w))
  {
    RestartKeeps(w);
    LoadedAgrees(LoadTask(FRESH, w.disk.task), w.disk.execution);
  }

  lemma RestartSteady(w: World, covered: bool)
    requires Inv(w) && Steady(w, covered)
    ensures Inv(Restart(w)) && Steady(Restart(w), covered)
  {
    RestartAgrees(w);
  }

  // ------------------------------------------------------------------------ main theorems

  lemma ActAgrees(w: World, a: Action)
    requires Inv(w) && Agrees(w) && (a.RestartNow? || OpOK(a.op))
    ensures Inv(Act(w, a)) && Agrees(Act(w, a))
  {
    ActKeeps(w, a);
    match a
    case Do(op) => PerformSteady(w, op, false);
    case DieIn(op, moments) =>
      PerformKeeps(w, op);
      CutAgrees(Perform(w, op), Kept(w, Perform(w, op), moments));
    case RestartNow => RestartAgrees(w);
  }

  lemma CutAgrees(v: World, n: nat)
    requires Sound(v) && 0 < n <= |v.log|
    ensures Agrees(CutAt(v, n))
  {
    var m := v.log[n - 1];
    PrefixOfLog(v.log, n, v.max);
    RestartAgrees(v.(disk := m.disk, tally := m.tally, log := v.log[..n]));
  }

  /** Memory and disk agree between the operations of every history, wherever it stopped. */
  lemma {:induction false} HistoryAgrees(w: World, actions: seq<Action>)
    requires Inv(w) && Agrees(w) && ActionsOK(actions)
    ensures Inv(History(w, actions)) && Agrees(History(w, actions))
    decreases |actions|
  {
    if actions != [] {
      ActAgrees(w, actions[0]);
      HistoryAgrees(Act(w, actions[0]), actions[1..]);
    }
  }

  /** After every history, with stops anywhere, a restart restores what the next step works
      on. */
  lemma RestartIsEquivalent(max: nat, actions: seq<Action>)
    requires ActionsOK(actions)
    ensures var w := History(First(max), actions); WorkingOf(Restart(w).mem) == WorkingOf(w.mem)
  {
    FirstIsSound(max);
    FirstIsSteady(max);
    HistoryAgrees(First(max), actions);
    RestartRestores(History(First(max), actions));
  }

  /** The process may be restarted, but only between operations. */
  ghost predicate BetweenOnly(actions: seq<Action>) {
    ActionsOK(actions) && forall i :: 0 <= i < |actions| ==> !actions[i].DieIn?
  }

  /** Then the watermark also covers every acknowledged event. */
  lemma {:induction false} HistoryStaysCovered(w: World, actions: seq<Action>)
    requires Inv(w) && Steady(w, true) && BetweenOnly(actions)
    ensures Inv(History(w, actions)) && Steady(History(w, actions), true)
    decreases |actions|
  {
    if actions != [] {
      var a := actions[0];
      if a.Do? {
        PerformKeeps(w, a.op);
        PerformSteady(w, a.op, true);
      } else {
        RestartSteady(w, true);
      }
      HistoryStaysCovered(Act(w, a), actions[1..]);
    }
  }

  lemma FirstIsSteady(max: nat)
    ensures Steady(First(max), true)
  {
  }
}
