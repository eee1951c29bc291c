/** Exactly when a step is allowed a permit and when it starts the installer, told on what is
    stored and on what the step is told. */
module OrchestratorGates {
  import opened Wrappers
  import opened Bytes
  import opened OrchestratorState
  import opened OrchestratorSpec
  import opened OrchestratorInvariants
  import opened OrchestratorHistory
  import opened OrchestratorBoundaries
  import opened OrchestratorPermits
  import opened OrchestratorTurns
  import opened OrchestratorResults
  import opened OrchestratorStages

  // -------------------------------------------------------------------------- the permit

  /** The stored task waits for a permit, its window is open, the local guards pass, and the
      cloud allows it. */
  predicate PermitIsOpen(d: Disk, e: StepEnv) {
    && TaskAt(d) in {Some(WaitingWindow), Some(PermitPending), Some(RetryPending)}
    && SnapshotAt(d).Some? && SnapshotAt(d).value.startMs <= e.now && e.now < SnapshotAt(d).value.endMs
    && e.guards && e.permit.Some? && e.permit.value.Some?
  }

  function Or<T>(o: Option<T>, otherwise: T): T {
    if o.Some? then o.value else otherwise
  }

  /** The record says what the permit says, with unset fields empty. */
  predicate Records(r: ExecutionRec, p: Permit) {
    && r.executionId == Or(p.executionId, "") && r.attemptNo == Or(p.attemptNo, 0)
    && r.permitId == p.permitId && r.permitToken == p.permitToken && r.controlRevision == p.controlRevision
    && r.validUntilMs == Or(p.validUntilMs, 0) && r.installPlanVersion == Or(p.installPlanVersion, "")
    && r.offlinePolicy == Or(p.offlinePolicy, []) && r.timeoutPolicy == Or(p.timeoutPolicy, [])
    && r.state == PermitPersisted
  }

  lemma OpenIsGrants(w: World, e: StepEnv)
    requires Inv(w)
    ensures Grants(w, e) <==> PermitIsOpen(w.disk, e)
  {
  }

  lemma GrantIsFirst(w: World, e: StepEnv)
    requires Inv(w) && Grants(w, e)
    ensures |Step(w, e).log| == |w.log| + 4 && Step(w, e).log[|w.log|].call == GrantOf(e.permit.value.value)
  {
    TaskIsReal(w);
    GrantLength(w, e);
    GrantMoments(w, e, |w.log|);
  }

  /** A step is given a permit if and only if the stored task waits for one, its window is open,
      the guards pass and the cloud allows it. */
  lemma PermitIsGivenIff(max: nat, actions: seq<Action>, e: StepEnv)
    requires ActionsOK(actions) && EnvOK(e)
    ensures var w := History(First(max), actions);
            (exists i :: |w.log| <= i < |Step(w, e).log| && Step(w, e).log[i].call.PermitGranted?)
            <==> PermitIsOpen(w.disk, e)
  {
    FirstIsSound(max);
    FirstIsSteady(max);
    HistoryAgrees(First(max), actions);
    var w := History(First(max), actions);
    OpenIsGrants(w, e);
    if i :| |w.log| <= i < |Step(w, e).log| && Step(w, e).log[i].call.PermitGranted? {
      PermitsOnlyGranted(w, StepOp(e), i);
    }
    if Grants(w, e) {
      GrantIsFirst(w, e);
    }
  }

  /** The four moments of a permit: given, with nothing stored yet; the task stored as executing;
      then what the permit says; then the counters, unchanged. */
  ghost predicate PermitStored(w: World, v: World, p: Permit) {
    var n, log := |w.log|, v.log;
    && |log| == n + 4 && w.log <= log
    && log[n].call.PermitGranted? && Records(log[n].call.permit, p) && log[n].disk == w.disk
    && w.disk.task.Some? && w.disk.task.value.snapshot.Some?
    && log[n + 1].disk == w.disk.(task := Some(w.disk.task.value.(state := Executing)))
    && log[n + 2].disk == log[n + 1].disk.(execution := Some(log[n].call.permit))
    && log[n + 3].disk == log[n + 2].disk.(meta := Some(MetaOf(w.disk.meta))) == v.disk
  }

  lemma PermitIsStored(max: nat, actions: seq<Action>, e: StepEnv)
    requires ActionsOK(actions) && EnvOK(e) && PermitIsOpen(History(First(max), actions).disk, e)
    ensures var w := History(First(max), actions); PermitStored(w, Step(w, e), e.permit.value.value)
  {
    FirstIsSound(max);
    FirstIsSteady(max);
    HistoryAgrees(First(max), actions);
    var w := History(First(max), actions);
    OpenIsGrants(w, e);
    GrantStores(w, e);
  }

  lemma GrantStores(w: World, e: StepEnv)
    requires Inv(w) && Agrees(w) && Grants(w, e)
    ensures PermitStored(w, Step(w, e), e.permit.value.value)
  {
    var p := e.permit.value.value;
    TaskIsReal(w);
    GrantSteps(w, e);
    var w0 := Say(Settle(w), GrantOf(p));
    var w1 := MoveTo(w0.(mem := Hold(w0.mem, p)), Executing);
    var w2 := Put(w1, w1.disk.(execution := Some(ExecutionOf(w1.mem))));
    var w3 := Put(w2, w2.disk.(meta := Some(MetaRec(w2.mem.next, w2.mem.accepted))));
    assert Step(w, e) == w3;
    assert w3.log == w.log + [w0.log[|w.log|], w1.log[|w0.log|], w2.log[|w1.log|], w3.log[|w2.log|]];
  }

  // --------------------------------------------------------------------------- the start

  /** The stored task executes an installation that has not begun. */
  predicate AwaitsStart(d: Disk) {
    TaskAt(d) == Some(Executing) && (RunAt(d) == None || RunAt(d) == Some(PermitPersisted) || RunAt(d) == Some(ExReady))
  }

  lemma StartsOnlyAttempted(w: World, e: StepEnv, i: nat)
    requires Inv(w) && Agrees(w) && |w.log| <= i < |Step(w, e).log| && Step(w, e).log[i].call.StartCalled?
    ensures Attempts(w, e) && i == |w.log|
  {
    EveryMoment(w, StepOp(e), i);
    if Grants(w, e) {
      TaskIsReal(w);
      GrantMoments(w, e, i);
    } else if !Attempts(w, e) {
      OtherOpsArePlain(w, StepOp(e));
    }
  }

  lemma AttemptIsFirst(w: World, e: StepEnv)
    requires Attempts(w, e)
    ensures |w.log| < |Step(w, e).log| && Step(w, e).log[|w.log|].call == StartOf(w, e)
  {
    AttemptInParts(w, e);
    StartMoments(w, e, |w.log|);
    assert Step(w, e).log[|w.log|] == Start(w, e).log[|w.log|];
  }

  /** A step starts the installer if and only if the stored task awaits its start and the
      installer is prepared; it does so first of all, and hands over the permit stored. */
  lemma InstallerIsStartedIff(max: nat, actions: seq<Action>, e: StepEnv)
    requires ActionsOK(actions) && EnvOK(e)
    ensures var w := History(First(max), actions);
            (exists i :: |w.log| <= i < |Step(w, e).log| && Step(w, e).log[i].call.StartCalled?)
            <==> AwaitsStart(w.disk) && e.prepared
    ensures var w := History(First(max), actions);
            AwaitsStart(w.disk) && e.prepared ==>
              && |w.log| < |Step(w, e).log| && Step(w, e).log[|w.log|].call.StartCalled?
              && Step(w, e).log[|w.log|].call.started == e.started
              && (w.disk.execution.Some? ==>
                    Step(w, e).log[|w.log|].call.permit == w.disk.execution.value.(state := PermitPersisted))
  {
    FirstIsSound(max);
    FirstIsSteady(max);
    HistoryAgrees(First(max), actions);
    var w := History(First(max), actions);
    MemoryIsStored(w);
    AwaitsIsDue(w);
    if i :| |w.log| <= i < |Step(w, e).log| && Step(w, e).log[i].call.StartCalled? {
      StartsOnlyAttempted(w, e, i);
    }
    if Attempts(w, e) {
      AttemptIsFirst(w, e);
    }
  }

  lemma AwaitsIsDue(w: World)
    requires Inv(w) && Agrees(w)
    ensures AwaitsStart(w.disk) <==> Due(w.mem)
  {
    MemoryIsStored(w);
  }
}
