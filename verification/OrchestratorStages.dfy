/** The plan a task follows from its detection to its end, told on what is stored. */
module OrchestratorStages {
  import opened Wrappers
  import opened Bytes
  import opened OrchestratorState
  import opened OrchestratorSpec
  import opened OrchestratorSegments
  import opened OrchestratorInvariants
  import opened OrchestratorHistory
  import opened OrchestratorBoundaries
  import opened OrchestratorPermits
  import opened OrchestratorRetries
  import opened OrchestratorTurns
  import opened OrchestratorResults

  // ------------------------------------------------------------------------------ the plan

  function SnapshotAt(d: Disk): Option<Task> {
    match d.task
    case None => None
    case Some(r) => r.snapshot
  }

  /** The consent stored is about this task, with this answer. */
  predicate Consented(d: Disk, t: Task, accepted: bool) {
    d.consent.Some? && d.consent.value.taskId == t.id && d.consent.value.accepted == accepted
  }

  /** From the stored state `before` the task `t` may move on to `state` on this disk. Only a
      final result, for a task in hand, may assign any state but none. */
  predicate MayFollow(before: Option<VtState>, state: VtState, t: Task, d: Disk) {
    if InHand(before) then state != NoTask
    else
      match state
      case Discovered => before == None || before == Some(NoTask)
      case ConsentPending => before == Some(Discovered) && t.consentRequired
      case DownloadPending =>
        || (before == Some(Discovered) && !t.consentRequired)
        || (before == Some(ConsentPending) && Consented(d, t, true))
      case Ended => before == Some(ConsentPending) && Consented(d, t, false)
      case Downloading => before == Some(DownloadPending)
      case Ready => before == Some(DownloadPending) || before == Some(Downloading)
      case WaitingWindow => before == Some(Ready)
      case Executing => before == Some(WaitingWindow) || before == Some(PermitPending) || before == Some(RetryPending)
      case _ => false
  }

  /** A task once stored stays stored; another one replaces it only as it is detected. */
  predicate OnPlan(p: Disk, m: Disk) {
    m.task != p.task ==>
      && m.task.Some? && m.task.value.snapshot.Some?
      && (m.task.value.snapshot != SnapshotAt(p) ==> m.task.value.state == Discovered)
      && (Some(m.task.value.state) != TaskAt(p) ==>
            MayFollow(TaskAt(p), m.task.value.state, m.task.value.snapshot.value, m))
  }

  ghost predicate StaysOnPlan(w: World, v: World) {
    && 0 < |w.log| && w.log <= v.log && Ends(v)
    && forall i :: |w.log| <= i < |v.log| ==> OnPlan(v.log[i - 1].disk, v.log[i].disk)
  }

  lemma FollowsOn(u: World, v: World, w: World)
    requires StaysOnPlan(u, v) && StaysOnPlan(v, w)
    ensures StaysOnPlan(u, w)
  {
    forall i | |u.log| <= i < |w.log|
      ensures OnPlan(w.log[i - 1].disk, w.log[i].disk)
    {
      if i < |v.log| {
        assert w.log[i - 1] == v.log[i - 1] && w.log[i] == v.log[i];
      }
    }
  }

  lemma PutFollows(w: World, d: Disk)
    requires Ends(w) && OnPlan(w.disk, d)
    ensures StaysOnPlan(w, Put(w, d))
  {
    assert Put(w, d).log[|w.log| - 1] == w.log[|w.log| - 1];
  }

  // ------------------------------------------------------------- stretches that keep the task

  ghost predicate KeepsTask(w: World, v: World) {
    && w.log <= v.log && Ends(v) && v.disk.task == w.disk.task
    && forall i :: |w.log| <= i < |v.log| ==> v.log[i].disk.task == w.disk.task
  }

  lemma KeptFollows(w: World, v: World)
    requires Ends(w) && KeepsTask(w, v)
    ensures StaysOnPlan(w, v)
  {
    forall i | |w.log| <= i < |v.log|
      ensures OnPlan(v.log[i - 1].disk, v.log[i].disk)
    {
      if i == |w.log| {
        assert v.log[i - 1] == w.log[|w.log| - 1];
      }
    }
  }

  lemma KeepsTaskOn(u: World, v: World, w: World)
    requires KeepsTask(u, v) && KeepsTask(v, w)
    ensures KeepsTask(u, w)
  {
    forall i | |u.log| <= i < |w.log|
      ensures w.log[i].disk.task == u.disk.task
    {
      if i < |v.log| {
        assert w.log[i] == v.log[i];
      }
    }
  }

  lemma EmitKeepsTask(w: World, payload: ByteString)
    requires Ends(w)
    ensures KeepsTask(w, Emit(w, payload))
  {
    EmitLeaves(w, w, payload);
    forall i | |w.log| <= i < |Emit(w, payload).log|
      ensures Emit(w, payload).log[i].disk.task == w.disk.task
    {
      assert LeftAlone(w, Emit(w, payload).log[i]);
    }
  }

  lemma StartKeepsTask(v: World, e: StepEnv)
    requires Ends(v)
    ensures KeepsTask(v, Start(v, e))
  {
    StartCalm(v, e);
    EmittedMoments(Say(v, StartOf(v, e)), e.emitted);
    forall i | |v.log| <= i < |Start(v, e).log|
      ensures Start(v, e).log[i].disk.task == v.disk.task
    {
      StartMoments(v, e, i);
    }
  }

  lemma RecordKeepsTask(v: World)
    requires Ends(v)
    ensures KeepsTask(v, RecordStart(v))
  {
  }

  lemma SentAllKeepsTask(v: World, e: StepEnv)
    requires Ends(v) && !NotYetStarted(v.mem.ex)
    ensures KeepsTask(v, SentAll(v, e))
  {
    SentAllWrites(v, e);
    forall i | |v.log| <= i < |SentAll(v, e).log|
      ensures SentAll(v, e).log[i].disk.task == v.disk.task
    {
      SentAllMoments(v, e, i);
      assert StaysDue(v, SentAll(v, e).log[i]);
    }
    SentAllEnds(v, e);
  }

  lemma SentAllEnds(v: World, e: StepEnv)
    requires Ends(v) && !NotYetStarted(v.mem.ex)
    ensures Ends(SentAll(v, e)) && SentAll(v, e).disk.task == v.disk.task
  {
    SendUpToLeaves(v, e, MetaOf(v.disk.meta).next);
  }

  // ----------------------------------------------------------------------------- operations

  lemma MoveToFollows(w: World, vt: VtState)
    requires Ends(w) && SnapshotStored(w) && w.mem.task != DEFAULT_TASK
    requires Some(vt) != TaskAt(w.disk) ==> MayFollow(TaskAt(w.disk), vt, w.mem.task, w.disk)
    ensures StaysOnPlan(w, MoveTo(w, vt)) && SnapshotStored(MoveTo(w, vt)) && TaskAt(MoveTo(w, vt).disk) == Some(vt)
  {
    var d := MoveTo(w, vt).disk;
    assert Consented(d, w.mem.task, true) == Consented(w.disk, w.mem.task, true);
    assert Consented(d, w.mem.task, false) == Consented(w.disk, w.mem.task, false);
    PutFollows(w.(mem := w.mem.(vt := vt)), d);
  }

  lemma CheckTaskFollows(w: World, e: StepEnv)
    requires Inv(w) && EnvOK(e) && (w.mem.vt == NoTask || w.mem.vt == Discovered)
    ensures StaysOnPlan(w, CheckTask(w, e))
  {
    match e.check
    case None =>
    case Some(NotAccepted) => PutFollows(w, w.disk.(fullRequired := true));
    case Some(TaskMissing) =>
    case Some(TaskFound(task)) =>
      var w1 := Freeze(w, task);
      PutFollows(w.(mem := w1.mem), w1.disk);
      MoveToFollows(w1, if task.consentRequired then ConsentPending else DownloadPending);
      FollowsOn(w, w1, Accept(w, task));
  }

  lemma ConsentFollows(w: World, e: StepEnv)
    requires Inv(w) && w.mem.vt == ConsentPending
    ensures StaysOnPlan(w, Consent(w, e))
  {
    if e.consent.Some? {
      var w1 := SaveConsent(w, e.consent.value);
      TaskIsReal(w);
      PutFollows(w, w1.disk);
      MoveToFollows(w1, if e.consent.value.accepted then DownloadPending else Ended);
      FollowsOn(w, w1, Consent(w, e));
    }
  }

  lemma {:induction false} DownloadFollows(w: World, e: StepEnv, i: nat, allReady: bool)
    requires Ends(w) && SnapshotStored(w) && w.mem.task != DEFAULT_TASK && i <= |w.mem.task.packages|
    requires TaskAt(w.disk) == Some(DownloadPending) || TaskAt(w.disk) == Some(Downloading)
    ensures StaysOnPlan(w, DownloadFrom(w, e, i, allReady))
    decreases |w.mem.task.packages| - i
  {
    if i == |w.mem.task.packages| {
      MoveToFollows(w, if allReady then Ready else Downloading);
    } else {
      var p := w.mem.task.packages[i];
      var entry := DownloadEntry(w.disk, p);
      if entry.ready {
        DownloadFollows(w, e, i + 1, allReady);
      } else {
        var f := Fetch(entry, p, e.package(i));
        PutFollows(w, SaveDownload(w, f.entry).disk);
        if !f.failed {
          var w1 := SaveDownload(w, f.entry);
          DownloadFollows(w1, e, i + 1, allReady && !f.heldBack);
          FollowsOn(w, w1, DownloadFrom(w1, e, i + 1, allReady && !f.heldBack));
        }
      }
    }
  }

  lemma PreparingFollows(w: World, e: StepEnv)
    requires Inv(w) && EnvOK(e) && Prepares(w.mem.vt)
    ensures StaysOnPlan(w, Step(w, e))
  {
    assert Step(w, e) == Dispatch(w, e);
    if w.mem.vt == NoTask || w.mem.vt == Discovered {
      CheckTaskFollows(w, e);
    } else if w.mem.vt == ConsentPending {
      ConsentFollows(w, e);
    } else {
      TaskIsReal(w);
      DownloadFollows(w, e, 0, true);
    }
  }

  lemma GrantedFollows(w: World, v: World, p: Permit)
    requires Ends(w) && w.log <= v.log && |v.log| == |w.log| + 4 && Ends(v)
    requires w.mem.task != DEFAULT_TASK && SnapshotAt(w.disk) == Some(w.mem.task)
    requires MayFollow(TaskAt(w.disk), Executing, w.mem.task, v.disk)
    requires forall i :: |w.log| <= i < |v.log| ==> IsGrantMoment(w, p, i - |w.log| + 1, v.log[i])
    ensures StaysOnPlan(w, v)
  {
    assert v.log[|w.log| - 1] == w.log[|w.log| - 1];
  }

  lemma AwaitingMayExecute(w: World, d: Disk)
    requires Inv(w) && AwaitsPermit(w.mem.vt) && w.mem.vt != Ready
    ensures MayFollow(TaskAt(w.disk), Executing, w.mem.task, d)
    ensures w.mem.task != DEFAULT_TASK && SnapshotAt(w.disk) == Some(w.mem.task)
  {
    TaskIsReal(w);
  }

  lemma GrantEnds(w: World, e: StepEnv)
    requires Grants(w, e)
    ensures w.log <= Step(w, e).log && |Step(w, e).log| == |w.log| + 4 && Ends(Step(w, e))
  {
    GrantSteps(w, e);
    TakeMoments(Say(Settle(w), GrantOf(e.permit.value.value)), e.permit.value.value);
  }

  lemma GrantFollows(w: World, e: StepEnv)
    requires Inv(w) && Grants(w, e)
    ensures StaysOnPlan(w, Step(w, e))
  {
    var v := Step(w, e);
    AwaitingMayExecute(w, v.disk);
    GrantEnds(w, e);
    forall i | |w.log| <= i < |v.log|
      ensures IsGrantMoment(w, e.permit.value.value, i - |w.log| + 1, v.log[i])
    {
      GrantMoments(w, e, i);
    }
    GrantedFollows(w, v, e.permit.value.value);
  }

  lemma WaitingFollows(w: World)
    requires Inv(w) && w.mem.vt == Ready
    ensures StaysOnPlan(w, MoveTo(w, WaitingWindow))
  {
    TaskIsReal(w);
    MoveToFollows(w, WaitingWindow);
  }

  lemma RequestFollows(w: World, e: StepEnv)
    requires Inv(w) && AwaitsPermit(w.mem.vt)
    ensures StaysOnPlan(w, Step(w, e))
  {
    if Grants(w, e) {
      GrantFollows(w, e);
    } else {
      UngrantedRequest(w, e);
      if w.mem.vt == Ready {
        WaitingFollows(w);
      }
    }
  }

  lemma FinalizeFollows(w: World, e: StepEnv)
    requires Reportable(w) && SnapshotStored(w) && w.disk.task.value.snapshot.Some?
    ensures StaysOnPlan(w, Finalize(w, e))
  {
    FinalizeClosed(w, e);
    var n, v := |w.log|, Finalize(w, e);
    assert v.log[n - 1] == w.log[n - 1];
  }

  lemma SendEventsFollows(v: World, e: StepEnv)
    requires Underway(v) && !NotYetStarted(v.mem.ex) && SnapshotStored(SentAll(v, e))
    requires v.disk.task.Some? && v.disk.task.value.snapshot.Some?
    ensures StaysOnPlan(v, SendEvents(v, e))
  {
    SendEventsInParts(v, e);
    SentAllMoves(v, e);
    SentAllKeepsTask(v, e);
    KeptFollows(v, SentAll(v, e));
    if !SendUpTo(v, e, MetaOf(v.disk.meta).next).1 {
      FinalizeFollows(SentAll(v, e), e);
      FollowsOn(v, SentAll(v, e), Finalize(SentAll(v, e), e));
    }
  }

  lemma StartFollows(v: World, e: StepEnv)
    requires Underway(v) && NotYetStarted(v.mem.ex)
    ensures StaysOnPlan(v, Start(v, e))
    ensures var u := RecordStart(Start(v, e)); StaysOnPlan(v, u) && u.disk.task == v.disk.task
  {
    StartKeepsTask(v, e);
    KeptFollows(v, Start(v, e));
    RecordKeepsTask(Start(v, e));
    KeepsTaskOn(v, Start(v, e), RecordStart(Start(v, e)));
    KeptFollows(v, RecordStart(Start(v, e)));
  }

  lemma ExecutingFollows(w: World, e: StepEnv)
    requires Inv(w) && Agrees(w) && Settle(w).mem.vt == Executing
    ensures StaysOnPlan(w, Step(w, e))
  {
    var v := Settle(w);
    SettledIsUnderway(w);
    ReportingIsStoredToo(w, e);
    DispatchExecutes(v, e);
    if !NotYetStarted(v.mem.ex) {
      SendEventsFollows(v, e);
    } else if e.prepared {
      StartFollows(v, e);
      if e.started {
        StartMoves(v, e);
        SendEventsFollows(SendingWorld(v, e), e);
        FollowsOn(v, SendingWorld(v, e), Step(w, e));
      }
    }
  }

  lemma StepFollows(w: World, e: StepEnv)
    requires Inv(w) && Agrees(w) && EnvOK(e)
    ensures StaysOnPlan(w, Step(w, e))
  {
    if Prepares(w.mem.vt) {
      PreparingFollows(w, e);
    } else if AwaitsPermit(w.mem.vt) {
      RequestFollows(w, e);
    } else if AfterPermit(w.mem.vt) {
      ExecutingFollows(w, e);
    } else {
      DispatchRests(w, e);
    }
  }

  lemma ControlKeepsTask(w: World, c: Control)
    requires Ends(w)
    ensures KeepsTask(w, ApplyControl(w, c))
  {
  }

  lemma OperationFollows(w: World, op: Op)
    requires Inv(w) && Agrees(w) && OpOK(op)
    ensures StaysOnPlan(w, Perform(w, op))
  {
    match op
    case StepOp(e) => StepFollows(w, e);
    case EmitOp(payload) =>
      EmitKeepsTask(w, payload);
      KeptFollows(w, Emit(w, payload));
    case ControlOp(control) =>
      ControlKeepsTask(w, control);
      KeptFollows(w, ApplyControl(w, control));
  }

  // ------------------------------------------------------------------------- whole histories

  ghost predicate Planned(log: seq<Moment>) {
    forall i :: 0 < i < |log| ==> OnPlan(log[i - 1].disk, log[i].disk)
  }

  lemma PlannedOn(w: World, v: World, n: nat)
    requires Planned(w.log) && StaysOnPlan(w, v) && n <= |v.log|
    ensures Planned(v.log[..n])
  {
    var some := v.log[..n];
    forall i | 0 < i < n
      ensures OnPlan(some[i - 1].disk, some[i].disk)
    {
      assert some[i - 1] == v.log[i - 1] && some[i] == v.log[i];
      if i < |w.log| {
        assert v.log[i - 1] == w.log[i - 1] && v.log[i] == w.log[i];
      }
    }
  }

  lemma ActIsPlanned(w: World, a: Action)
    requires Inv(w) && Agrees(w) && (a.RestartNow? || OpOK(a.op)) && Planned(w.log)
    ensures Planned(Act(w, a).log)
  {
    if !a.RestartNow? {
      var v := Perform(w, a.op);
      OperationFollows(w, a.op);
      PlannedOn(w, v, |v.log|);
      assert v.log[..|v.log|] == v.log;
      if a.DieIn? {
        PlannedOn(w, v, Kept(w, v, a.moments));
      }
    }
  }

  lemma {:induction false} HistoryIsPlanned(w: World, actions: seq<Action>)
    requires Inv(w) && Agrees(w) && ActionsOK(actions) && Planned(w.log)
    ensures Planned(History(w, actions).log)
    decreases |actions|
  {
    if actions != [] {
      ActAgrees(w, actions[0]);
      ActIsPlanned(w, actions[0]);
      HistoryIsPlanned(Act(w, actions[0]), actions[1..]);
    }
  }

  /** In every history, with stops anywhere, the stored task moves only along the plan, and the
      frozen task is replaced only when one is detected. */
  lemma TaskFollowsPlan(max: nat, actions: seq<Action>, i: nat)
    requires ActionsOK(actions) && 0 < i < |History(First(max), actions).log|
    ensures var log := History(First(max), actions).log; OnPlan(log[i - 1].disk, log[i].disk)
  {
    FirstIsSound(max);
    FirstIsSteady(max);
    HistoryIsPlanned(First(max), actions);
  }
}
