/** What a final result makes of an execution, and exactly when a rollback is recorded as one. */
module OrchestratorResults {
  import opened Wrappers
  import opened Bytes
  import opened OrchestratorState
  import opened OrchestratorSpec
  import opened OrchestratorSegments
  import opened OrchestratorInvariants
  import opened OrchestratorHistory
  import opened OrchestratorBoundaries
  import opened OrchestratorPermits
  import opened OrchestratorRetries
  import opened OrchestratorTurns

  // ---------------------------------------------------------------- what one report leads to

  /** A report that is accepted is the fourth last moment, before the task state the cloud
      assigns, the execution, and the counters as they are; any other report is the last. */
  predicate ResultTaken(log: seq<Moment>, i: nat, final: Option<FinalReply>)
    requires i < |log|
  {
    if final.Some? && final.value.accepted then
      && |log| == i + 4
      && StoresReply(log[i].disk, log[i + 1].disk, final.value)
      && StoresResult(log[i + 1].disk, log[i + 2].disk)
      && log[i + 3].disk == log[i + 2].disk
    else |log| == i + 1
  }

  lemma FinalizeTakes(u: World, e: StepEnv, i: nat)
    requires Reportable(u) && SnapshotStored(u)
    requires |u.log| <= i < |Finalize(u, e).log| && Finalize(u, e).log[i].call.FinalReported?
    ensures ResultTaken(Finalize(u, e).log, i, e.final)
  {
    FinalizeClosed(u, e);
  }

  lemma SendingTakes(v: World, e: StepEnv, i: nat)
    requires Underway(v) && !NotYetStarted(v.mem.ex) && SnapshotStored(SentAll(v, e))
    requires |v.log| <= i < |SendEvents(v, e).log| && SendEvents(v, e).log[i].call.FinalReported?
    ensures ResultTaken(SendEvents(v, e).log, i, e.final)
  {
    SendingReportsLate(v, e, i);
    SendEventsInParts(v, e);
    SentAllMoves(v, e);
    FinalizeTakes(SentAll(v, e), e, i);
  }

  lemma SendingReportsLate(v: World, e: StepEnv, i: nat)
    requires !NotYetStarted(v.mem.ex)
    requires |v.log| <= i < |SendEvents(v, e).log| && SendEvents(v, e).log[i].call.FinalReported?
    ensures |SentAll(v, e).log| <= i
  {
    SendingShape(v, e);
    SentAllWrites(v, e);
    var some := SentAll(v, e).log;
    forall k | |v.log| <= k < |some|
      ensures !some[k].call.FinalReported?
    {
      assert IsWrite(v, some[k]);
    }
    ReportIsLater(some, SendEvents(v, e).log, |v.log|, i);
  }

  /** For every operation of every history: a final result that is accepted stores the task
      state of the reply, or COMPLETED, and then the execution: FAILED for a pending retry, else
      ROLLED_BACK if it was a rollback, else SUCCEEDED. Nothing else changes, and a result that
      is not accepted changes nothing. */
  lemma ResultIsTaken(max: nat, actions: seq<Action>, e: StepEnv, i: nat)
    requires ActionsOK(actions) && EnvOK(e)
    requires var w := History(First(max), actions);
             |w.log| <= i < |Step(w, e).log| && Step(w, e).log[i].call.FinalReported?
    ensures ResultTaken(Step(History(First(max), actions), e).log, i, e.final)
  {
    FirstIsSound(max);
    FirstIsSteady(max);
    HistoryAgrees(First(max), actions);
    StepTakes(History(First(max), actions), e, i);
  }

  lemma StepTakes(w: World, e: StepEnv, i: nat)
    requires Inv(w) && Agrees(w) && |w.log| <= i < |Step(w, e).log| && Step(w, e).log[i].call.FinalReported?
    ensures ResultTaken(Step(w, e).log, i, e.final)
  {
    var v := Settle(w);
    if v.mem.vt == Executing {
      SettledIsUnderway(w);
      ReportingIsStoredToo(w, e);
      DispatchExecutes(v, e);
      ExecutingTakes(v, e, i);
    } else {
      NothingReported(w, e, i);
    }
  }

  lemma ExecutingTakes(v: World, e: StepEnv, i: nat)
    requires Underway(v) && SnapshotStored(SentAll(SendingWorld(v, e), e))
    requires |v.log| <= i < |Execute(v, e).log| && Execute(v, e).log[i].call.FinalReported?
    ensures ResultTaken(Execute(v, e).log, i, e.final)
  {
    if !NotYetStarted(v.mem.ex) {
      SendingTakes(v, e, i);
    } else {
      StartCalm(v, e);
      assert i < |Start(v, e).log| ==> CalmMoment(v, Start(v, e).log[i]);
      if e.started {
        var u := SendingWorld(v, e);
        StartMoves(v, e);
        RecordReportsNothing(v, e);
        SendingShape(u, e);
        ReportIsLater(u.log, Execute(v, e).log, |v.log|, i);
        SendingTakes(u, e, i);
      }
    }
  }

  lemma ReportIsLater(some: seq<Moment>, all: seq<Moment>, n: nat, i: nat)
    requires some <= all && n <= i < |all| && forall k :: n <= k < |some| ==> !some[k].call.FinalReported?
    ensures all[i].call.FinalReported? ==> |some| <= i
  {
    if i < |some| {
      assert all[i] == some[i];
    }
  }

  lemma RecordReportsNothing(v: World, e: StepEnv)
    requires Ends(v)
    ensures var u := RecordStart(Start(v, e));
            v.log <= u.log && forall i :: |v.log| <= i < |u.log| ==> !u.log[i].call.FinalReported?
  {
    StartCalm(v, e);
    var u := RecordStart(Start(v, e));
    forall i | |v.log| <= i < |u.log|
      ensures !u.log[i].call.FinalReported?
    {
      if i < |Start(v, e).log| {
        assert CalmMoment(v, Start(v, e).log[i]);
      }
    }
  }

  lemma RequestReportsNothing(v: World, e: StepEnv, i: nat)
    requires |v.log| <= i < |RequestPermit(v, e).log|
    ensures !RequestPermit(v, e).log[i].call.FinalReported?
  {
  }

  lemma PreparingReportsNothing(v: World, e: StepEnv, i: nat)
    requires Early(v.disk) && v.mem.vt != Executing && !AwaitsPermit(v.mem.vt) && |v.log| <= i < |Dispatch(v, e).log|
    ensures !Dispatch(v, e).log[i].call.FinalReported?
  {
    PreparingEarly(v, e);
    assert EarlyMoment(v, Dispatch(v, e).log[i]);
  }

  lemma RestIsEarly(w: World)
    requires Inv(w) && Settle(w).mem.vt != Executing && !AwaitsPermit(w.mem.vt)
    ensures Early(w.disk) && !AwaitsPermit(Settle(w).mem.vt)
  {
  }

  /** A step of another state does not report. */
  lemma NothingReported(w: World, e: StepEnv, i: nat)
    requires Inv(w) && Settle(w).mem.vt != Executing && |w.log| <= i < |Step(w, e).log|
    ensures !Step(w, e).log[i].call.FinalReported?
  {
    var v := Settle(w);
    assert Step(w, e) == Dispatch(v, e);
    if AwaitsPermit(w.mem.vt) {
      DispatchRequests(v, e);
      RequestReportsNothing(v, e, i);
    } else {
      RestIsEarly(w);
      PreparingReportsNothing(v, e, i);
    }
  }

  // ----------------------------------------------------------- how the stored execution turns

  /** At moment `i` the stored execution turns into this state. */
  predicate Turned(log: seq<Moment>, i: nat, ex: ExState) {
    0 < i < |log| && RunAt(log[i].disk) == Some(ex) && RunAt(log[i - 1].disk) != Some(ex)
  }

  /** The report two moments before was made for the execution that is closed now. */
  lemma ClosedAsReported(log: seq<Moment>, i: nat, ex: ExState)
    requires Lawful(log) && |log| > 0 && log[0].call.Boot? && Turned(log, i, ex)
    requires ex == Failed || ex == RolledBack || ex == Succeeded
    ensures i > 2 && log[i - 2].call.FinalReported? && RunAt(log[i - 1].disk) == RunAt(log[i - 2].disk)
    ensures log[i - 2].call.rolledBack <==> RunAt(log[i - 1].disk) == Some(Rollback)
  {
    assert Moves(log, 0, i);
    assert Moves(log, 0, i - 1);
    assert Moves(log, 0, i - 2);
    assert i > 3 ==> Moves(log, 0, i - 3);
  }

  /** In every history, with stops anywhere: whenever the stored execution turns into another
      state the stored task stays as it is, and the execution turns FAILED if and only if the
      task stored is RETRY_PENDING. It turns ROLLED_BACK from ROLLBACK and SUCCEEDED from any
      other state that has begun, after a report that says so; ROLLBACK only for a task stored
      as ROLLBACK_PENDING, and INSTALL_STARTED only for one that has not begun. */
  lemma ExecutionTurns(max: nat, actions: seq<Action>, i: nat, ex: ExState)
    requires ActionsOK(actions) && Turned(History(First(max), actions).log, i, ex)
    ensures var log := History(First(max), actions).log;
            var before, task := RunAt(log[i - 1].disk), TaskAt(log[i].disk);
            && TaskAt(log[i - 1].disk) == task
            && (ex == Failed <==> task == Some(RetryPending))
            && (ex == RolledBack ==> before == Some(Rollback))
            && (ex == Succeeded ==> Begun(before) && before != Some(Rollback))
            && (ex == Failed || ex == RolledBack || ex == Succeeded ==>
                  && i > 2 && log[i - 2].call.FinalReported?
                  && (ex == RolledBack <==> log[i - 2].call.rolledBack && task != Some(RetryPending)))
            && (ex == Rollback ==> task == Some(RollbackPending))
            && (ex == InstallStarted ==> task == Some(Executing) && !Begun(before))
            && (ex == PermitPersisted ==> task == Some(Executing) && i >= 2 && log[i - 2].call.PermitGranted?)
            && ex in {Failed, RolledBack, Succeeded, Rollback, InstallStarted, PermitPersisted}
  {
    LogIsLawful(max, actions);
    FirstMomentBoots(max, actions);
    var log := History(First(max), actions).log;
    assert Moves(log, 0, i);
    if ex == Failed || ex == RolledBack || ex == Succeeded {
      ClosedAsReported(log, i, ex);
    }
  }

  lemma FirstMomentBoots(max: nat, actions: seq<Action>)
    requires ActionsOK(actions)
    ensures var log := History(First(max), actions).log; |log| > 0 && log[0] == Moment(Boot, EMPTY_DISK, NO_TALLY)
  {
    FirstIsSound(max);
    HistoryIsSound(First(max), actions);
  }

  // ------------------------------------------------------------------ rollbacks since a permit

  /** A task that waits for its rollback, with the rollback begun. */
  predicate InRollback(d: Disk) {
    TaskAt(d) == Some(RollbackPending) && RunAt(d) == Some(Rollback)
  }

  /** Up to moment `i` a rollback was begun for a task that waits for it, and no permit has been
      given since. */
  ghost predicate RollbackSincePermit(log: seq<Moment>, i: nat)
    requires i < |log|
  {
    exists j :: 0 <= j <= i && InRollback(log[j].disk) && NoPermitIn(log, j, i)
  }

  /** An execution that goes on as a rollback. */
  predicate GoesOnBack(d: Disk) {
    TaskAt(d) == Some(Executing) && RunAt(d) == Some(Rollback)
  }

  /** A permit was given at moment `g` and its task state was stored over a rollback, but its
      execution was not. */
  predicate PermitLostOverRollback(log: seq<Moment>, g: nat) {
    && g + 1 < |log| && log[g].call.PermitGranted? && GoesOnBack(log[g + 1].disk)
    && (g + 2 < |log| ==> RunAt(log[g + 2].disk) != Some(PermitPersisted))
  }

  /** From the permit at `g` on, the rollback stored before it is still there. */
  ghost predicate RollbackOutlasts(log: seq<Moment>, g: nat, i: nat)
    requires i < |log|
  {
    && g < i && log[g].call.PermitGranted? && NoPermitIn(log, g, i)
    && forall k :: g <= k <= i ==> RunAt(log[k].disk) == Some(Rollback)
  }

  lemma SinceStep(log: seq<Moment>, i: nat)
    requires 0 < i < |log| && RollbackSincePermit(log, i - 1) && !log[i].call.PermitGranted?
    ensures RollbackSincePermit(log, i)
  {
    var j :| 0 <= j <= i - 1 && InRollback(log[j].disk) && NoPermitIn(log, j, i - 1);
    assert NoPermitIn(log, j, i);
  }

  lemma SinceHere(log: seq<Moment>, i: nat)
    requires i < |log| && InRollback(log[i].disk)
    ensures RollbackSincePermit(log, i)
  {
    assert NoPermitIn(log, i, i);
  }

  /** A rollback that goes on was asked for since the last permit, or that permit did not get
      as far as its execution. */
  lemma {:induction false} GoingBackIsExplained(log: seq<Moment>, i: nat) returns (g: nat)
    requires Lawful(log) && i < |log| && RunAt(log[0].disk).None? && GoesOnBack(log[i].disk)
    ensures RollbackSincePermit(log, i) || (g < i && RollbackOutlasts(log, g, i) && GoesOnBack(log[g + 1].disk))
  {
    assert i > 0;
    assert Moves(log, 0, i);
    assert RunAt(log[i - 1].disk) == Some(Rollback) && !log[i].call.PermitGranted?;
    g := i - 1;
    if TaskAt(log[i - 1].disk) == Some(Executing) {
      g := GoingBackIsExplained(log, i - 1);
      if RollbackSincePermit(log, i - 1) {
        SinceStep(log, i);
      }
    } else if log[i - 1].call.FinalReported? {
      assert Moves(log, 0, i - 1);
      SinceHere(log, i - 1);
      SinceStep(log, i);
    }
  }

  /** After such a permit no rollback is asked for before the next report. */
  ghost predicate LostUpTo(log: seq<Moment>, g: nat, i: nat)
    requires i < |log|
  {
    g < i && forall k :: g < k <= i ==> GoesOnBack(log[k].disk)
  }

  lemma LostIsNotSince(log: seq<Moment>, g: nat, i: nat)
    requires Lawful(log) && g < i < |log| && log[g].call.PermitGranted? && g > 0 && LostUpTo(log, g, i)
    ensures !RollbackSincePermit(log, i)
  {
    assert Moves(log, 0, g);
    forall j: nat | j <= i
      ensures !(InRollback(log[j].disk) && NoPermitIn(log, j, i))
    {
      if j < g {
        assert log[g].call.PermitGranted?;
      }
    }
  }

  /** It goes on as a rollback until it is reported as one or the history ends. */
  lemma {:induction false} LostIsReported(log: seq<Moment>, g: nat, i: nat) returns (k: nat)
    requires Lawful(log) && i < |log| && PermitLostOverRollback(log, g) && LostUpTo(log, g, i)
    requires forall n :: g < n < i ==> !log[n].call.FinalReported?
    ensures i <= k < |log| && LostUpTo(log, g, k) && (log[k].call.FinalReported? || k == |log| - 1)
    decreases |log| - i
  {
    if log[i].call.FinalReported? || i == |log| - 1 {
      return i;
    }
    assert Moves(log, 0, i) && Moves(log, 0, i + 1);
    assert i > g + 1 ==> Moves(log, 0, i - 1);
    assert GoesOnBack(log[i + 1].disk);
    k := LostIsReported(log, g, i + 1);
  }

  /** Each result reported, and one that is still to come, is a rollback only if one was asked
      for since the last permit. */
  ghost predicate RollbacksAreAskedFor(log: seq<Moment>) {
    forall i :: 0 <= i < |log| && (log[i].call.FinalReported? || i == |log| - 1) && GoesOnBack(log[i].disk) ==>
      RollbackSincePermit(log, i)
  }

  lemma AskedForIff(log: seq<Moment>)
    requires Lawful(log) && |log| > 0 && log[0].call.Boot? && RunAt(log[0].disk).None?
    ensures RollbacksAreAskedFor(log) <==> !exists g: nat :: PermitLostOverRollback(log, g)
  {
    if g: nat :| PermitLostOverRollback(log, g) {
      assert LostUpTo(log, g, g + 1);
      var k := LostIsReported(log, g, g + 1);
      LostIsNotSince(log, g, k);
    } else {
      forall i | 0 <= i < |log| && (log[i].call.FinalReported? || i == |log| - 1) && GoesOnBack(log[i].disk)
        ensures RollbackSincePermit(log, i)
      {
        var g := GoingBackIsExplained(log, i);
        if !RollbackSincePermit(log, i) {
          assert Moves(log, 0, i) && Moves(log, 0, g);
          assert PermitLostOverRollback(log, g);
        }
      }
    }
  }

  // ---------------------------------------------------------------------- told before the stop

  /** The stop leaves the state of a new permit stored over a rollback, without its execution. */
  predicate StopsOverRollback(w: World, a: Action) {
    a.DieIn? && a.op.StepOp? && Grants(w, a.op.env) && a.moments == 2 && w.mem.ex == Rollback
  }

  predicate NeverOverRollback(w: World, actions: seq<Action>)
    decreases |actions|
  {
    actions == [] || (!StopsOverRollback(w, actions[0]) && NeverOverRollback(Act(w, actions[0]), actions[1..]))
  }

  ghost predicate LosesOverRollback(log: seq<Moment>) {
    exists g: nat :: PermitLostOverRollback(log, g)
  }

  lemma PermitsOnlyGranted(w: World, op: Op, i: nat)
    requires Inv(w) && Agrees(w) && OpOK(op) && |w.log| <= i < |Perform(w, op).log|
    requires Perform(w, op).log[i].call.PermitGranted?
    ensures op.StepOp? && Grants(w, op.env) && i == |w.log|
  {
    var v := Perform(w, op);
    PerformKeeps(w, op);
    if op.StepOp? && Grants(w, op.env) {
      TaskIsReal(w);
      GrantMoments(w, op.env, i);
    } else {
      SamePermits(w, op, i);
      assert Follows(v.log[i - 1], v.log[i]);
      if i > |w.log| {
        SamePermits(w, op, i - 1);
      }
    }
  }

  lemma SamePermits(w: World, op: Op, i: nat)
    requires Inv(w) && Agrees(w) && OpOK(op) && |w.log| <= i < |Perform(w, op).log|
    requires op.StepOp? ==> !Grants(w, op.env)
    ensures Perform(w, op).log[i].tally.permits == w.tally.permits
  {
    if op.StepOp? && Attempts(w, op.env) {
      AttemptInParts(w, op.env);
      if i < |Start(w, op.env).log| {
        StartMoments(w, op.env, i);
      } else {
        RecordedMoment(w, op.env, i);
      }
    } else {
      OtherOpsArePlain(w, op);
      assert Plain(w, Perform(w, op).log[i]);
    }
  }

  /** One operation up to moment `n`: a permit is lost over a rollback before it, or by it. */
  lemma CutLosesIff(w: World, op: Op, n: nat)
    requires Inv(w) && Agrees(w) && OpOK(op) && Lawful(w.log) && w.log[0].call.Boot?
    requires |w.log| + n <= |Perform(w, op).log|
    ensures LosesOverRollback(Perform(w, op).log[..|w.log| + n])
            <==> LosesOverRollback(w.log) || StopsOverRollback(w, DieIn(op, n))
  {
    OperationMoves(w, op);
    var lo, log := |w.log|, Perform(w, op).log[..|w.log| + n];
    assert forall i :: 0 <= i < lo ==> log[i] == w.log[i];
    if g: nat :| PermitLostOverRollback(log, g) {
      if g < lo {
        EarlierLoss(w, Perform(w, op), n, g);
      } else {
        PermitsOnlyGranted(w, op, g);
        GrantedCut(w, op.env, n);
      }
    }
    if g: nat :| PermitLostOverRollback(w.log, g) {
      LossStays(w, op, n, g);
    }
    if StopsOverRollback(w, DieIn(op, n)) {
      GrantedCut(w, op.env, n);
    }
  }

  lemma GrantedCut(w: World, e: StepEnv, n: nat)
    requires Inv(w) && Agrees(w) && Grants(w, e) && |w.log| + n <= |Step(w, e).log|
    ensures PermitLostOverRollback(Step(w, e).log[..|w.log| + n], |w.log|) <==> n == 2 && w.mem.ex == Rollback
  {
    TaskIsReal(w);
    GrantLength(w, e);
    GrantMoments(w, e, |w.log|);
    GrantMoments(w, e, |w.log| + 1);
    GrantMoments(w, e, |w.log| + 2);
  }

  /** The first moment of an operation does not store the task of a permit given before. */
  lemma NextIsNoPermit(w: World, v: World)
    requires Ends(w) && Lawful(w.log) && w.log[0].call.Boot? && MovesIn(w, v) && |w.log| < |v.log|
    ensures w.log[|w.log| - 1].call.PermitGranted? ==> !GoesOnBack(v.log[|w.log|].disk)
  {
    var n := |w.log|;
    assert Moves(v.log, n, n);
    assert n > 1 ==> Moves(w.log, 0, n - 1);
  }

  lemma EarlierLoss(w: World, v: World, n: nat, g: nat)
    requires Ends(w) && Lawful(w.log) && w.log[0].call.Boot? && MovesIn(w, v)
    requires |w.log| + n <= |v.log| && g < |w.log|
    ensures PermitLostOverRollback(v.log[..|w.log| + n], g) ==> PermitLostOverRollback(w.log, g)
  {
    assert v.log[g] == w.log[g];
    if g + 1 < |w.log| {
      assert v.log[g + 1] == w.log[g + 1];
      assert g + 2 < |w.log| ==> v.log[g + 2] == w.log[g + 2];
    } else if n > 0 {
      NextIsNoPermit(w, v);
    }
  }

  lemma LossStays(w: World, op: Op, n: nat, g: nat)
    requires MovesIn(w, Perform(w, op)) && |w.log| + n <= |Perform(w, op).log| && PermitLostOverRollback(w.log, g)
    ensures PermitLostOverRollback(Perform(w, op).log[..|w.log| + n], g)
  {
    var v := Perform(w, op);
    assert v.log[g] == w.log[g] && v.log[g + 1] == w.log[g + 1];
    if g + 2 < |w.log| {
      assert v.log[g + 2] == w.log[g + 2];
    } else if g + 2 < |w.log| + n {
      assert Moves(v.log, |w.log|, g + 2);
    }
  }

  lemma StopIsInside(w: World, op: Op, n: nat)
    requires StopsOverRollback(w, DieIn(op, n))
    ensures |w.log| + n < |Perform(w, op).log|
  {
    GrantLength(w, op.env);
  }

  lemma WholeLog(v: World)
    ensures v.log[..|v.log|] == v.log
  {
  }

  lemma DoneLosesIff(w: World, op: Op)
    requires Inv(w) && Agrees(w) && OpOK(op) && Lawful(w.log) && w.log[0].call.Boot?
    ensures LosesOverRollback(Perform(w, op).log) <==> LosesOverRollback(w.log)
  {
    PerformKeeps(w, op);
    var n := |Perform(w, op).log| - |w.log|;
    CutLosesIff(w, op, n);
    WholeLog(Perform(w, op));
    if StopsOverRollback(w, DieIn(op, n)) {
      StopIsInside(w, op, n);
    }
  }

  lemma StoppedLosesIff(w: World, op: Op, n: nat)
    requires Inv(w) && Agrees(w) && OpOK(op) && Lawful(w.log) && w.log[0].call.Boot?
    ensures LosesOverRollback(Stopped(w, Perform(w, op), n).log)
            <==> LosesOverRollback(w.log) || StopsOverRollback(w, DieIn(op, n))
  {
    PerformKeeps(w, op);
    var k := Kept(w, Perform(w, op), n) - |w.log|;
    CutLosesIff(w, op, k);
    if StopsOverRollback(w, DieIn(op, n)) {
      StopIsInside(w, op, n);
    }
    if StopsOverRollback(w, DieIn(op, k)) {
      StopIsInside(w, op, k);
    }
  }

  lemma ActLosesIff(w: World, a: Action)
    requires Inv(w) && Agrees(w) && (a.RestartNow? || OpOK(a.op)) && Lawful(w.log) && w.log[0].call.Boot?
    ensures LosesOverRollback(Act(w, a).log) <==> LosesOverRollback(w.log) || StopsOverRollback(w, a)
  {
    match a
    case Do(op) => DoneLosesIff(w, op);
    case DieIn(op, n) => StoppedLosesIff(w, op, n);
    case RestartNow =>
  }

  lemma {:induction false} HistoryLosesIff(w: World, actions: seq<Action>)
    requires Inv(w) && Agrees(w) && ActionsOK(actions) && Lawful(w.log) && w.log[0].call.Boot?
    ensures LosesOverRollback(History(w, actions).log)
            <==> LosesOverRollback(w.log) || !NeverOverRollback(w, actions)
    decreases |actions|
  {
    if actions != [] {
      ActKeeps(w, actions[0]);
      ActAgrees(w, actions[0]);
      ActIsLawful(w, actions[0]);
      ActLosesIff(w, actions[0]);
      HistoryLosesIff(Act(w, actions[0]), actions[1..]);
    }
  }

  // ------------------------------------------------------------------------- main theorems

  /** In every history, with stops anywhere: each result reported as a rollback, and each one
      still to come, follows a rollback asked for since the last permit, if and only if no stop
      fell between the state and the execution of a permit given over a rollback. */
  lemma RollbacksAreAskedForIff(max: nat, actions: seq<Action>)
    requires ActionsOK(actions)
    ensures RollbacksAreAskedFor(History(First(max), actions).log) <==> NeverOverRollback(First(max), actions)
  {
    LogIsLawful(max, actions);
    FirstMomentBoots(max, actions);
    FirstIsSound(max);
    FirstIsSteady(max);
    HistoryLosesIff(First(max), actions);
    AskedForIff(History(First(max), actions).log);
  }

  lemma AskedForStays(log: seq<Moment>, i: nat)
    requires Lawful(log) && 2 < i < |log| && RollbackSincePermit(log, i - 2)
    requires log[i - 1].call == log[i].call == Wrote
    ensures RollbackSincePermit(log, i)
  {
    SinceStep(log, i - 1);
    SinceStep(log, i);
  }

  lemma RolledBackIsReport(log: seq<Moment>, i: nat)
    requires Lawful(log) && |log| > 0 && log[0].call.Boot? && Turned(log, i, RolledBack)
    ensures i > 2 && log[i - 2].call.FinalReported? && log[i - 1].call == log[i].call == Wrote
    ensures InRollback(log[i - 2].disk) || GoesOnBack(log[i - 2].disk)
  {
    ClosedAsReported(log, i, RolledBack);
    assert Moves(log, 0, i);
    assert Moves(log, 0, i - 2);
  }

  /** In particular, without such a stop an execution turns ROLLED_BACK only after a rollback
      asked for since the last permit. */
  lemma RolledBackWasAskedFor(max: nat, actions: seq<Action>, i: nat)
    requires ActionsOK(actions) && NeverOverRollback(First(max), actions)
    requires Turned(History(First(max), actions).log, i, RolledBack)
    ensures RollbackSincePermit(History(First(max), actions).log, i)
  {
    LogIsLawful(max, actions);
    FirstMomentBoots(max, actions);
    RollbacksAreAskedForIff(max, actions);
    RolledBackSince(History(First(max), actions).log, i);
  }

  lemma RolledBackSince(log: seq<Moment>, i: nat)
    requires Lawful(log) && |log| > 0 && log[0].call.Boot? && Turned(log, i, RolledBack) && RollbacksAreAskedFor(log)
    ensures RollbackSincePermit(log, i)
  {
    RolledBackIsReport(log, i);
    if InRollback(log[i - 2].disk) {
      SinceHere(log, i - 2);
    }
    AskedForStays(log, i);
  }

  /** From the rollback at `j` on, without a permit: it goes on, or has been recorded, or the
      task waits for a retry. */
  ghost predicate RollbackEnded(log: seq<Moment>, j: nat, k: nat)
    requires k < |log|
  {
    || RunAt(log[k].disk) == Some(Rollback) || TaskAt(log[k].disk) == Some(RetryPending)
    || exists r: nat :: j < r <= k && Turned(log, r, RolledBack)
  }

  lemma {:induction false} RollbackEnds(log: seq<Moment>, j: nat, k: nat)
    requires Lawful(log) && j <= k < |log| && log[0].call.Boot? && InRollback(log[j].disk) && NoPermitIn(log, j, k)
    ensures RollbackEnded(log, j, k)
    decreases k
  {
    if j < k {
      assert NoPermitIn(log, j, k - 1);
      RollbackEnds(log, j, k - 1);
      assert Moves(log, 0, k);
      assert j > 0 ==> Moves(log, 0, j);
      if RunAt(log[k].disk) == Some(RolledBack) && RunAt(log[k - 1].disk) != Some(RolledBack) {
        assert Turned(log, k, RolledBack);
      } else if r: nat :| j < r <= k - 1 && Turned(log, r, RolledBack) {
        assert j < r <= k && Turned(log, r, RolledBack);
      }
    }
  }

  lemma SinceOn(log: seq<Moment>, r: nat, i: nat)
    requires r <= i < |log| && RollbackSincePermit(log, r) && NoPermitIn(log, r, i)
    ensures RollbackSincePermit(log, i)
  {
    var j: nat :| j <= r && InRollback(log[j].disk) && NoPermitIn(log, j, r);
    assert NoPermitIn(log, j, i);
  }

  /** Moment `r` records a rollback asked for since the last permit, and there is none up to `i`. */
  ghost predicate RecordedBefore(log: seq<Moment>, r: nat, i: nat) {
    r < i < |log| && Turned(log, r, RolledBack) && RollbackSincePermit(log, r) && NoPermitIn(log, r, i)
  }

  lemma RollbackWasRecorded(log: seq<Moment>, j: nat, i: nat) returns (r: nat)
    requires Lawful(log) && j <= i < |log| && log[0].call.Boot? && InRollback(log[j].disk) && NoPermitIn(log, j, i)
    requires Turned(log, i, Succeeded)
    ensures RecordedBefore(log, r, i)
  {
    assert Moves(log, 0, i);
    assert j < i && NoPermitIn(log, j, i - 1);
    RollbackEnds(log, j, i - 1);
    r :| j < r <= i - 1 && Turned(log, r, RolledBack);
    assert NoPermitIn(log, j, r) && NoPermitIn(log, r, i);
  }

  /** An execution that turns SUCCEEDED although a rollback was asked for since the last permit:
      exactly when that rollback has been recorded before and the execution went on. */
  lemma SucceededAfterRollbackIff(max: nat, actions: seq<Action>, i: nat)
    requires ActionsOK(actions) && Turned(History(First(max), actions).log, i, Succeeded)
    ensures var log := History(First(max), actions).log;
            RollbackSincePermit(log, i) <==> exists r: nat :: RecordedBefore(log, r, i)
  {
    LogIsLawful(max, actions);
    FirstMomentBoots(max, actions);
    SucceededIff(History(First(max), actions).log, i);
  }

  lemma SucceededIff(log: seq<Moment>, i: nat)
    requires Lawful(log) && i < |log| && log[0].call.Boot? && Turned(log, i, Succeeded)
    ensures RollbackSincePermit(log, i) <==> exists r: nat :: RecordedBefore(log, r, i)
  {
    if RollbackSincePermit(log, i) {
      var j: nat :| j <= i && InRollback(log[j].disk) && NoPermitIn(log, j, i);
      var r := RollbackWasRecorded(log, j, i);
    }
    if r: nat :| RecordedBefore(log, r, i) {
      SinceOn(log, r, i);
    }
  }
}
