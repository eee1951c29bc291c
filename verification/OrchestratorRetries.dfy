/** Results against starts: which stops let a result be reported for an install that was allowed
    and never started. */
module OrchestratorRetries {
  import opened Wrappers
  import opened OrchestratorState
  import opened OrchestratorSpec
  import opened OrchestratorSegments
  import opened OrchestratorInvariants
  import opened OrchestratorHistory
  import opened OrchestratorBoundaries
  import opened OrchestratorPromises
  import opened OrchestratorPermits

  // --------------------------------------------------------------------- in memory, on disk

  /** The next step sends the events and reports the result. */
  predicate Reporting(m: Mem) {
    m.vt == RollbackPending || (m.vt == Executing && !NotYetStarted(m.ex))
  }

  predicate ReportsNext(d: Disk) {
    && d.task.Some? && d.task.value.snapshot.Some?
    && (|| d.task.value.state == RollbackPending
        || (d.task.value.state == Executing && d.execution.Some? && !NotYetStarted(d.execution.value.state)))
  }

  lemma ReportingIsStored(w: World)
    requires Inv(w) && Agrees(w)
    ensures Reporting(w.mem) <==> ReportsNext(w.disk)
  {
  }

  predicate IsBegun(d: Disk, t: Tally) {
    ReportsNext(d) ==> t.begun
  }

  predicate ReportsBegun(m: Moment) {
    m.call.FinalReported? ==> m.tally.begun
  }

  /** Stopped after `n` moments, the new state is stored and the new execution is not, over an
      earlier one that was started. */
  predicate SkipsStart(w: World, op: Op, n: nat) {
    op.StepOp? && Grants(w, op.env) && n == 2 && !NotYetStarted(w.mem.ex)
  }

  /** Results are reported, and will be next, only for installs begun since the last permit. */
  const RESULTS: Promise := Promise(ReportsBegun, IsBegun, SkipsStart)

  // ----------------------------------------------------------- operations that come before

  /** A write that leaves the task short of its execution. */
  predicate Aside(m: Moment) {
    m.call == Wrote && NotExecuting(m.disk)
  }

  predicate NotExecuting(d: Disk) {
    d.task.Some? ==> !AfterPermit(d.task.value.state)
  }

  ghost predicate StaysAside(w: World, v: World) {
    w.log <= v.log && NotExecuting(v.disk) && forall i :: |w.log| <= i < |v.log| ==> Aside(v.log[i])
  }

  lemma PutAside(w: World, d: Disk)
    requires NotExecuting(d)
    ensures StaysAside(w, Put(w, d))
  {
  }

  lemma AsideOn(u: World, v: World, w: World)
    requires StaysAside(u, v) && StaysAside(v, w)
    ensures StaysAside(u, w)
  {
    forall i | |u.log| <= i < |w.log|
      ensures Aside(w.log[i])
    {
      if i < |v.log| {
        assert w.log[i] == v.log[i];
      }
    }
  }

  lemma {:induction false} DownloadAside(w: World, e: StepEnv, i: nat, allReady: bool)
    requires NotExecuting(w.disk) && i <= |w.mem.task.packages|
    ensures StaysAside(w, DownloadFrom(w, e, i, allReady))
    decreases |w.mem.task.packages| - i
  {
    if i == |w.mem.task.packages| {
      PutAside(w, MoveTo(w, if allReady then Ready else Downloading).disk);
    } else {
      var p := w.mem.task.packages[i];
      var entry := DownloadEntry(w.disk, p);
      if entry.ready {
        DownloadAside(w, e, i + 1, allReady);
      } else {
        var f := Fetch(entry, p, e.package(i));
        PutAside(w, SaveDownload(w, f.entry).disk);
        if !f.failed {
          var w1 := SaveDownload(w, f.entry);
          DownloadAside(w1, e, i + 1, allReady && !f.heldBack);
          AsideOn(w, w1, DownloadFrom(w1, e, i + 1, allReady && !f.heldBack));
        }
      }
    }
  }

  lemma CheckTaskAside(w: World, e: StepEnv)
    requires NotExecuting(w.disk)
    ensures StaysAside(w, CheckTask(w, e))
  {
    match e.check
    case None =>
    case Some(NotAccepted) =>
    case Some(TaskMissing) =>
    case Some(TaskFound(task)) =>
      var w1 := Freeze(w, task);
      PutAside(w, w1.disk);
      PutAside(w1, Accept(w, task).disk);
      AsideOn(w, w1, Accept(w, task));
  }

  lemma ConsentAside(w: World, e: StepEnv)
    requires NotExecuting(w.disk)
    ensures StaysAside(w, Consent(w, e))
  {
    if e.consent.Some? {
      var w1 := SaveConsent(w, e.consent.value);
      PutAside(w, w1.disk);
      PutAside(w1, Consent(w, e).disk);
      AsideOn(w, w1, Consent(w, e));
    }
  }

  lemma EarlyIsAside(w: World)
    requires Inv(w) && Agrees(w) && !Reporting(w.mem)
    ensures NotExecuting(w.disk) <==> !Due(w.mem)
  {
  }

  /** A step that neither is allowed nor starts nor reports. */
  lemma EarlyStepAside(w: World, e: StepEnv)
    requires !Reporting(w.mem) && !Grants(w, e) && !Attempts(w, e)
    ensures Due(w.mem) ==> Step(w, e).log == w.log
    ensures !Due(w.mem) && NotExecuting(w.disk) ==> StaysAside(w, Step(w, e))
  {
    var v := Settle(w);
    assert Step(w, e) == Dispatch(v, e);
    if v.mem.vt == Executing {
      DispatchExecutes(v, e);
    } else if AwaitsPermit(v.mem.vt) {
      DispatchRequests(v, e);
      if v.mem.vt == Ready && NotExecuting(w.disk) {
        PutAside(v, MoveTo(v, WaitingWindow).disk);
      }
    } else if NotExecuting(w.disk) {
      PreparingAside(v, e);
    }
  }

  lemma PreparingAside(v: World, e: StepEnv)
    requires NotExecuting(v.disk) && v.mem.vt != Executing && !AwaitsPermit(v.mem.vt)
    ensures StaysAside(v, Dispatch(v, e))
  {
    match v.mem.vt
    case NoTask => CheckTaskAside(v, e);
    case Discovered => CheckTaskAside(v, e);
    case ConsentPending => ConsentAside(v, e);
    case DownloadPending => DownloadAside(v, e, 0, true);
    case Downloading => DownloadAside(v, e, 0, true);
    case _ =>
  }

  // ----------------------------------------------------------------- moments that keep order

  lemma StartKeepsOrder(w: World, e: StepEnv, i: nat)
    requires Inv(w) && Agrees(w) && Attempts(w, e) && |w.log| <= i < |Step(w, e).log|
    ensures MomentKeeps(RESULTS, w, StepOp(e), i - |w.log| + 1, Step(w, e).log[i])
  {
    ReportingIsStored(w);
    AttemptInParts(w, e);
    if i < |Start(w, e).log| {
      StartMoments(w, e, i);
      assert Step(w, e).log[i] == Start(w, e).log[i];
    } else {
      RecordedMoment(w, e, i);
    }
  }

  lemma GrantKeepsOrder(w: World, e: StepEnv, i: nat)
    requires Inv(w) && Agrees(w) && Grants(w, e) && |w.log| <= i < |Step(w, e).log|
    ensures MomentKeeps(RESULTS, w, StepOp(e), i - |w.log| + 1, Step(w, e).log[i])
  {
    ReportingIsStored(w);
    TaskIsReal(w);
    GrantMoments(w, e, i);
    GrantInOrder(w, e.permit.value.value, i - |w.log| + 1, Step(w, e).log[i]);
  }

  lemma GrantInOrder(w: World, p: Permit, n: nat, m: Moment)
    requires ExecutionAgrees(w.mem, w.disk.execution) && !ReportsNext(w.disk) && IsGrantMoment(w, p, n, m) && 1 <= n
    ensures ReportsNext(m.disk) <==> n == 2 && !NotYetStarted(w.mem.ex)
    ensures !m.tally.begun && !m.call.FinalReported?
  {
  }

  /** While results are due, everything is in order if the install has begun. */
  lemma BegunKeepsOrder(w: World, op: Op, i: nat)
    requires Reporting(w.mem) && w.tally.begun && |w.log| <= i < |Perform(w, op).log|
    ensures MomentKeeps(RESULTS, w, op, i - |w.log| + 1, Perform(w, op).log[i])
  {
    OtherOpsArePlain(w, op);
    assert Plain(w, Perform(w, op).log[i]);
  }

  lemma EarlyStepKeepsOrder(w: World, e: StepEnv, i: nat)
    requires Inv(w) && Agrees(w) && !Reporting(w.mem) && |w.log| <= i < |Step(w, e).log|
    requires !Grants(w, e) && !Attempts(w, e)
    ensures Aside(Step(w, e).log[i])
  {
    EarlyIsAside(w);
    EarlyStepAside(w, e);
  }

  lemma OtherKeepsOrder(w: World, op: Op, i: nat)
    requires !op.StepOp? && |w.log| <= i < |Perform(w, op).log|
    ensures Unmoved(w, Perform(w, op).log[i]) && !Perform(w, op).log[i].call.FinalReported?
  {
    if op.EmitOp? {
      EmitLeaves(w, w, op.payload);
      assert LeftAlone(w, Perform(w, op).log[i]);
    } else {
      ControlUnmoved(w, op.control, i);
    }
  }

  lemma EarlyKeepsOrder(w: World, op: Op, i: nat)
    requires Inv(w) && Agrees(w) && !Reporting(w.mem) && |w.log| <= i < |Perform(w, op).log|
    requires op.StepOp? ==> !Grants(w, op.env) && !Attempts(w, op.env)
    ensures MomentKeeps(RESULTS, w, op, i - |w.log| + 1, Perform(w, op).log[i])
  {
    if op.StepOp? {
      EarlyStepKeepsOrder(w, op.env, i);
    } else {
      ReportingIsStored(w);
      OtherKeepsOrder(w, op, i);
    }
    EarlyIsOK(w, op, i - |w.log| + 1, Perform(w, op).log[i]);
  }

  lemma EarlyIsOK(w: World, op: Op, n: nat, m: Moment)
    requires op.StepOp? ==> !Grants(w, op.env)
    requires Aside(m) || (Unmoved(w, m) && !m.call.FinalReported? && !ReportsNext(w.disk))
    ensures MomentKeeps(RESULTS, w, op, n, m)
  {
  }

  lemma MomentInOrder(w: World, op: Op, i: nat)
    requires Inv(w) && Agrees(w) && IsBegun(w.disk, w.tally) && |w.log| <= i < |Perform(w, op).log|
    ensures MomentKeeps(RESULTS, w, op, i - |w.log| + 1, Perform(w, op).log[i])
  {
    ReportingIsStored(w);
    if op.StepOp? && Attempts(w, op.env) {
      StartKeepsOrder(w, op.env, i);
    } else if op.StepOp? && Grants(w, op.env) {
      GrantKeepsOrder(w, op.env, i);
    } else if Reporting(w.mem) {
      BegunKeepsOrder(w, op, i);
    } else {
      EarlyKeepsOrder(w, op, i);
    }
  }

  // ------------------------------------------------------------------- a start once skipped

  ghost predicate LeavesAlone(w: World, v: World) {
    && w.log <= v.log && v.tally == w.tally && v.mem.ex == w.mem.ex
    && v.disk.task == w.disk.task && v.disk.execution == w.disk.execution
    && forall i :: |w.log| <= i < |v.log| ==> LeftAlone(w, v.log[i])
  }

  lemma {:induction false} SendUpToLeaves(w: World, e: StepEnv, upTo: nat)
    ensures LeavesAlone(w, SendUpTo(w, e, upTo).0)
    decreases upTo
  {
    if upTo > 1 {
      var v := SendUpTo(w, e, upTo - 1).0;
      SendUpToLeaves(w, e, upTo - 1);
      var u := SendOne(v, e, upTo - 1).0;
      forall i | |w.log| <= i < |u.log|
        ensures LeftAlone(w, u.log[i])
      {
        if i < |v.log| {
          assert u.log[i] == v.log[i];
        }
      }
    }
  }

  /** While the events are being sent, the result stays due. */
  predicate StaysDue(w: World, m: Moment) {
    && m.tally == w.tally && m.disk.task == w.disk.task
    && (m.disk.execution == w.disk.execution || (m.disk.execution.Some? && m.disk.execution.value.state == w.mem.ex))
  }

  lemma SentAllMoments(w: World, e: StepEnv, i: nat)
    requires |w.log| <= i < |SentAll(w, e).log|
    ensures StaysDue(w, SentAll(w, e).log[i])
  {
    var meta := MetaOf(w.disk.meta);
    var w1 := SendUpTo(w, e, meta.next).0;
    SendUpToLeaves(w, e, meta.next);
    var w2 := SaveWatermark(meta, w1);
    var v := SentAll(w, e);
    assert w2.log <= v.log && |v.log| == |w2.log| + 2;
    if i < |w1.log| {
      assert v.log[i] == w1.log[i];
    } else if i < |w2.log| {
      assert v.log[i] == w2.log[i];
    }
  }

  lemma SkippedStep(w: World, e: StepEnv, k: nat)
    requires Inv(w) && Agrees(w) && Reporting(w.mem) && !w.tally.begun && |w.log| < k <= |Step(w, e).log|
    ensures !KeptUpTo(RESULTS, Step(w, e).log, k)
  {
    ReportingIsStored(w);
    var v := Settle(w);
    DispatchExecutes(v, e);
    assert Step(w, e) == SendEvents(v, e);
    SkippedSending(v, e, k);
  }

  lemma SendingShape(v: World, e: StepEnv)
    requires !NotYetStarted(v.mem.ex)
    ensures var u, log := SentAll(v, e), SendEvents(v, e).log;
            && v.log <= u.log <= log
            && (SendUpTo(v, e, MetaOf(v.disk.meta).next).1 <==> |u.log| == |log|)
            && (|u.log| < |log| ==> log[|u.log|].call.FinalReported? && log[|u.log|].tally == v.tally)
  {
    SendEventsInParts(v, e);
    SentAllWrites(v, e);
    FinalizeWrites(SentAll(v, e), e);
    FinalizeReports(SentAll(v, e), e);
  }

  lemma SkippedSending(v: World, e: StepEnv, k: nat)
    requires ReportsNext(v.disk) && !v.tally.begun && !NotYetStarted(v.mem.ex) && |v.log| < k <= |SendEvents(v, e).log|
    ensures !KeptUpTo(RESULTS, SendEvents(v, e).log, k)
  {
    SendingShape(v, e);
    var n, log := |SentAll(v, e).log|, SendEvents(v, e).log;
    if k <= n {
      SentAllMoments(v, e, k - 1);
      assert log[k - 1] == SentAll(v, e).log[k - 1];
      StillDue(v, log[k - 1]);
    } else {
      assert !ReportsBegun(log[n]);
    }
  }

  lemma StillDue(v: World, m: Moment)
    requires ReportsNext(v.disk) && !v.tally.begun && !NotYetStarted(v.mem.ex) && StaysDue(v, m)
    ensures !IsBegun(m.disk, m.tally)
  {
  }

  lemma SkippedOther(w: World, op: Op, k: nat)
    requires !IsBegun(w.disk, w.tally) && !op.StepOp? && |w.log| < k <= |Perform(w, op).log|
    ensures !KeptUpTo(RESULTS, Perform(w, op).log, k)
  {
    if op.EmitOp? {
      EmitUnmoved(w, op.payload, k - 1);
    } else {
      ControlUnmoved(w, op.control, k - 1);
    }
    assert Unmoved(w, Perform(w, op).log[k - 1]);
  }

  lemma SkippedStays(w: World, op: Op)
    requires Inv(w) && Agrees(w) && !IsBegun(w.disk, w.tally)
    ensures StaysBroken(RESULTS, w, Perform(w, op))
  {
    ReportingIsStored(w);
    forall k | |w.log| < k <= |Perform(w, op).log|
      ensures !KeptUpTo(RESULTS, Perform(w, op).log, k)
    {
      if op.StepOp? {
        SkippedStep(w, op.env, k);
      } else {
        SkippedOther(w, op, k);
      }
    }
  }

  lemma ResultsAreLaw()
    ensures Law(RESULTS)
  {
    forall w, op | Inv(w) && Agrees(w) && OpOK(op)
      ensures Decides(RESULTS, w, op, Perform(w, op))
    {
      SkipsAreInside(w, op);
      if IsBegun(w.disk, w.tally) {
        forall i | |w.log| <= i < |Perform(w, op).log|
          ensures MomentKeeps(RESULTS, w, op, i - |w.log| + 1, Perform(w, op).log[i])
        {
          MomentInOrder(w, op, i);
        }
      } else {
        SkippedStays(w, op);
      }
    }
  }

  lemma SkipsAreInside(w: World, op: Op)
    ensures BreaksInside(RESULTS, w, op, Perform(w, op))
  {
    if op.StepOp? && Grants(w, op.env) {
      GrantLength(w, op.env);
    }
  }

  // ---------------------------------------------------------------------- as the log shows

  /** Up to moment `i` an install was started, and no permit has been allowed since. */
  ghost predicate StartedSincePermit(log: seq<Moment>, i: nat)
    requires i < |log|
  {
    exists j :: 0 <= j <= i && IsStart(log[j]) && NoPermitIn(log, j, i)
  }

  predicate IsStart(m: Moment) {
    m.call.StartCalled? && m.call.started
  }

  ghost predicate NoPermitIn(log: seq<Moment>, j: nat, i: nat)
    requires i < |log|
  {
    forall k :: j < k <= i ==> !log[k].call.PermitGranted?
  }

  lemma SincePermitStep(log: seq<Moment>, i: nat)
    requires 0 < i < |log|
    ensures StartedSincePermit(log, i)
            <==> IsStart(log[i]) || (!log[i].call.PermitGranted? && StartedSincePermit(log, i - 1))
  {
    if IsStart(log[i]) {
      assert NoPermitIn(log, i, i);
    }
    if !log[i].call.PermitGranted? && StartedSincePermit(log, i - 1) {
      var j :| 0 <= j <= i - 1 && IsStart(log[j]) && NoPermitIn(log, j, i - 1);
      assert NoPermitIn(log, j, i);
    }
    if !IsStart(log[i]) && StartedSincePermit(log, i) {
      var j :| 0 <= j <= i && IsStart(log[j]) && NoPermitIn(log, j, i);
      assert NoPermitIn(log, j, i - 1);
    }
  }

  lemma TallyFollows(log: seq<Moment>, max: nat, i: nat)
    requires LogOK(log, max) && 0 < i < |log|
    ensures log[i].tally == Counted(log[i - 1].tally, log[i].call)
  {
    assert Follows(log[i - 1], log[i]);
  }

  lemma {:induction false} BegunIff(log: seq<Moment>, max: nat, i: nat)
    requires LogOK(log, max) && i < |log| && log[0].call.Boot? && !log[0].tally.begun
    ensures log[i].tally.begun <==> StartedSincePermit(log, i)
  {
    if i > 0 {
      TallyFollows(log, max, i);
      SincePermitStep(log, i);
      BegunIff(log, max, i - 1);
    }
  }

  /** Each result reported, and one that is due, follows a start made since the last permit. */
  ghost predicate ResultsFollowStarts(w: World)
    requires w.log != []
  {
    && (Reporting(w.mem) ==> StartedSincePermit(w.log, |w.log| - 1))
    && forall i :: 0 <= i < |w.log| && w.log[i].call.FinalReported? ==> StartedSincePermit(w.log, i)
  }

  lemma FollowingIsKept(w: World)
    requires Inv(w) && Agrees(w) && w.log[0] == First(w.max).log[0]
    ensures ResultsFollowStarts(w) <==> Keeps(RESULTS, w)
  {
    ReportingIsStored(w);
    forall i | 0 <= i < |w.log|
      ensures w.log[i].tally.begun <==> StartedSincePermit(w.log, i)
    {
      BegunIff(w.log, w.max, i);
    }
    BegunIsKept(w);
  }

  lemma BegunIsKept(w: World)
    requires w.log != [] && w.log[|w.log| - 1].tally == w.tally && (Reporting(w.mem) <==> ReportsNext(w.disk))
    requires forall i :: 0 <= i < |w.log| ==> (w.log[i].tally.begun <==> StartedSincePermit(w.log, i))
    ensures ResultsFollowStarts(w) <==> Keeps(RESULTS, w)
  {
    if ResultsFollowStarts(w) {
      forall i | 0 <= i < |w.log|
        ensures ReportsBegun(w.log[i])
      {
      }
    }
    if Keeps(RESULTS, w) {
      forall i | 0 <= i < |w.log| && w.log[i].call.FinalReported?
        ensures StartedSincePermit(w.log, i)
      {
        assert ReportsBegun(w.log[i]);
      }
    }
  }

  // ------------------------------------------------------------------------- main theorems

  /** Stopped anywhere while a permit is being taken, the next process goes on to report a
      result if and only if the stop falls between the new state and the new execution, over an
      earlier execution that was started. */
  lemma CutSkipsStartIff(w: World, e: StepEnv, n: nat)
    requires Inv(w) && Agrees(w) && EnvOK(e) && Grants(w, e)
    ensures Reporting(Act(w, DieIn(StepOp(e), n)).mem) <==> n == 2 && !NotYetStarted(w.mem.ex)
  {
    PerformKeeps(w, StepOp(e));
    ReportingIsStored(w);
    TaskIsReal(w);
    GrantLength(w, e);
    forall i | |w.log| <= i < |Step(w, e).log|
      ensures IsGrantMoment(w, e.permit.value.value, i - |w.log| + 1, Step(w, e).log[i])
    {
      GrantMoments(w, e, i);
    }
    StoppedReports(w, Step(w, e), n);
    StoppedGrant(w, e.permit.value.value, Step(w, e), Kept(w, Step(w, e), n));
  }

  lemma StoppedGrant(w: World, p: Permit, v: World, k: nat)
    requires ExecutionAgrees(w.mem, w.disk.execution) && !ReportsNext(w.disk)
    requires forall i :: |w.log| <= i < |v.log| ==> IsGrantMoment(w, p, i - |w.log| + 1, v.log[i])
    requires w.log != [] && w.log[|w.log| - 1].disk == w.disk && w.log <= v.log && |w.log| <= k <= |v.log|
    ensures ReportsNext(v.log[k - 1].disk) <==> k == |w.log| + 2 && !NotYetStarted(w.mem.ex)
  {
    if k == |w.log| {
      assert v.log[k - 1] == w.log[k - 1];
    } else {
      GrantInOrder(w, p, k - |w.log|, v.log[k - 1]);
    }
  }

  lemma StoppedReports(w: World, v: World, n: nat)
    requires Sound(v) && w.log != [] && w.log <= v.log
    ensures Reporting(Stopped(w, v, n).mem) <==> ReportsNext(v.log[Kept(w, v, n) - 1].disk)
  {
    CutReports(v, Kept(w, v, n));
  }

  lemma CutReports(v: World, k: nat)
    requires Sound(v) && 0 < k <= |v.log|
    ensures Reporting(CutAt(v, k).mem) <==> ReportsNext(v.log[k - 1].disk)
  {
    PrefixIsSound(v, k);
    CutAgrees(v, k);
    ReportingIsStored(CutAt(v, k));
  }

  lemma {:induction false} NothingIsSentAgain(w: World, e: StepEnv, upTo: nat)
    requires forall n :: e.report(n) == Some(EventAccepted)
    ensures !SendUpTo(w, e, upTo).1
    decreases upTo
  {
    if upTo > 1 {
      NothingIsSentAgain(w, e, upTo - 1);
    }
  }

  lemma AcceptedSendingReports(v: World, e: StepEnv)
    requires !NotYetStarted(v.mem.ex) && forall n :: e.report(n) == Some(EventAccepted)
    ensures var i, log := |SentAll(v, e).log|, SendEvents(v, e).log;
            |v.log| <= i < |log| && log[i].call.FinalReported? && log[i].tally == v.tally
  {
    NothingIsSentAgain(v, e, MetaOf(v.disk.meta).next);
    SendingShape(v, e);
  }

  lemma SkippedStop(w: World, e: StepEnv)
    requires Inv(w) && Agrees(w) && EnvOK(e) && SkipsStart(w, StepOp(e), 2)
    ensures var v := Act(w, DieIn(StepOp(e), 2)); Reporting(v.mem) && !v.tally.begun
  {
    CutSkipsStartIff(w, e, 2);
    TaskIsReal(w);
    GrantLength(w, e);
    GrantMoments(w, e, |w.log| + 1);
    StoppedInside(w, Step(w, e), 2);
  }

  /** After such a stop the next process reports a result as soon as its events get through. */
  lemma CutRetrySkipsStart(w: World, e: StepEnv, next: StepEnv)
    requires Inv(w) && Agrees(w) && EnvOK(e) && SkipsStart(w, StepOp(e), 2)
    requires forall n :: next.report(n) == Some(EventAccepted)
    ensures var v := Act(w, DieIn(StepOp(e), 2));
            var log := Step(v, next).log;
            exists i :: |v.log| <= i < |log| && log[i].call.FinalReported? && !log[i].tally.begun
  {
    SkippedStop(w, e);
    var u := Settle(Act(w, DieIn(StepOp(e), 2)));
    DispatchExecutes(u, next);
    AcceptedSendingReports(u, next);
  }

  /** In every history, with stops anywhere: every result reported follows a start made since
      the last permit, and so does one still due, if and only if no stop fell between the state
      and the execution of a new attempt over an earlier one that was started. */
  lemma ResultsFollowStartsIff(max: nat, actions: seq<Action>)
    requires ActionsOK(actions)
    ensures History(First(max), actions).log != []
    ensures ResultsFollowStarts(History(First(max), actions)) <==> NeverBreaks(RESULTS, First(max), actions)
  {
    FirstIsSound(max);
    FirstIsSteady(max);
    ResultsAreLaw();
    KeptIff(RESULTS, max, actions);
    HistoryAgrees(First(max), actions);
    HistoryIsSound(First(max), actions);
    assert History(First(max), actions).log[0] == First(max).log[0];
    FollowingIsKept(History(First(max), actions));
  }
}
