/** Two histories in which what an execution is recorded as is not what was last asked for. */
module OrchestratorRollbacks {
  import opened Wrappers
  import opened Bytes
  import opened OrchestratorState
  import opened OrchestratorSpec
  import opened OrchestratorSegments
  import opened OrchestratorInvariants
  import opened OrchestratorHistory
  import opened OrchestratorBoundaries
  import opened OrchestratorPermits
  import opened OrchestratorRetries
  import opened OrchestratorTurns
  import opened OrchestratorResults
  import opened OrchestratorLimits

  /** An install that hands over no event, and a cloud that assigns this state to its result. */
  function Answering(state: VtState): StepEnv {
    Friendly(BARE_TASK).(emitted := [], final := Some(FinalReply(true, state)))
  }

  lemma AnsweringIsOK(state: VtState)
    ensures EnvOK(Answering(state))
  {
    FriendlyIsOK();
  }

  /** The execution is under way, and there is no event to send. */
  predicate NothingToSend(v: World) {
    && !NotYetStarted(v.mem.ex) && v.disk.meta == Some(MetaRec(1, 0)) && v.mem.next == 1 && v.mem.accepted == 0
    && v.mem.task == BARE_TASK
  }

  /** From `v` to `u` a result was reported and taken, in six moments: the execution as it was in
      memory and the counters, the report, the task, the new execution and the counters. */
  predicate Concluded(v: World, u: World, state: VtState, ex: ExState) {
    var n := |v.log|;
    && u.mem.vt == state && u.mem.ex == ex && NothingToSend(u)
    && TaskAt(u.disk) == Some(state) && RunAt(u.disk) == Some(ex)
    && |u.log| == n + 6 && v.log <= u.log
    && (forall i :: n <= i < n + 6 ==> !u.log[i].call.PermitGranted?)
    && (forall i :: n <= i < n + 3 ==> TaskAt(u.log[i].disk) == TaskAt(v.disk))
    && (forall i :: n <= i < n + 4 ==> RunAt(u.log[i].disk) == Some(v.mem.ex))
    && (forall i :: n + 3 <= i < n + 6 ==> TaskAt(u.log[i].disk) == Some(state))
    && (forall i :: n + 4 <= i < n + 6 ==> RunAt(u.log[i].disk) == Some(ex))
  }

  /** Sending stores the execution and the counters, and leaves the task. */
  predicate SentQuietly(v: World, u: World) {
    var n := |v.log|;
    && v.log <= u.log && |u.log| == n + 2 && u.mem == v.mem
    && u.log[n].call == u.log[n + 1].call == Wrote
    && TaskAt(u.log[n].disk) == TaskAt(u.log[n + 1].disk) == TaskAt(u.disk) == TaskAt(v.disk)
    && RunAt(u.log[n].disk) == RunAt(u.log[n + 1].disk) == RunAt(u.disk) == Some(v.mem.ex)
    && u.disk.meta == Some(MetaRec(1, 0))
  }

  lemma NothingIsSent(v: World, e: StepEnv)
    requires NothingToSend(v)
    ensures SentQuietly(v, SentAll(v, e)) && SendEvents(v, e) == Finalize(SentAll(v, e), e)
  {
    assert SendUpTo(v, e, 1) == (v, false);
    SendEventsInParts(v, e);
    var v1 := Put(v, v.disk.(execution := Some(ExecutionOf(v.mem))));
    assert SentAll(v, e) == Put(v1, v1.disk.(meta := Some(MetaRec(1, 0))));
  }

  /** The report is taken in four moments. */
  predicate TakenIn(w: World, u: World, state: VtState, ex: ExState) {
    var n := |w.log|;
    && u.mem.vt == state && u.mem.ex == ex && NothingToSend(u)
    && TaskAt(u.disk) == Some(state) && RunAt(u.disk) == Some(ex)
    && |u.log| == n + 4 && w.log <= u.log
    && (forall i :: n <= i < n + 4 ==> !u.log[i].call.PermitGranted?)
    && TaskAt(u.log[n].disk) == TaskAt(w.disk) && RunAt(u.log[n].disk) == RunAt(u.log[n + 1].disk) == RunAt(w.disk)
    && TaskAt(u.log[n + 1].disk) == TaskAt(u.log[n + 2].disk) == TaskAt(u.log[n + 3].disk) == Some(state)
    && RunAt(u.log[n + 2].disk) == RunAt(u.log[n + 3].disk) == Some(ex)
  }

  lemma FourMoments(w: World, u: World, state: VtState, ex: ExState, m0: Moment, m1: Moment, m2: Moment, m3: Moment)
    requires u.log == w.log + [m0, m1, m2, m3] && u.mem.vt == state && u.mem.ex == ex && NothingToSend(u)
    requires TaskAt(u.disk) == Some(state) && RunAt(u.disk) == Some(ex)
    requires !m0.call.PermitGranted? && m1.call == m2.call == m3.call == Wrote
    requires TaskAt(m0.disk) == TaskAt(w.disk) && RunAt(m0.disk) == RunAt(m1.disk) == RunAt(w.disk)
    requires TaskAt(m1.disk) == TaskAt(m2.disk) == TaskAt(m3.disk) == Some(state)
    requires RunAt(m2.disk) == RunAt(m3.disk) == Some(ex)
    ensures TakenIn(w, u, state, ex)
  {
    var n := |w.log|;
    assert u.log[n] == m0 && u.log[n + 1] == m1 && u.log[n + 2] == m2 && u.log[n + 3] == m3;
  }

  lemma ReportIsTaken(w: World, state: VtState, ex: ExState)
    requires NothingToSend(w) && state != NoTask && Closes(ex, Some(state), Some(w.mem.ex))
    ensures TakenIn(w, Finalize(w, Answering(state)), state, ex)
  {
    var w1 := Say(w, ReportOf(w.mem));
    var m := w.mem.(vt := state, ex := ex);
    var w2 := Put(w1.(mem := m), w1.disk.(task := Some(VehicleTaskRec(Some(BARE_TASK), state))));
    var w3 := Put(w2, w2.disk.(execution := Some(ExecutionOf(m))));
    var w4 := Put(w3, w3.disk.(meta := Some(MetaRec(1, 0))));
    assert Finalize(w, Answering(state)) == w4;
    FourMoments(w, w4, state, ex, w1.log[|w.log|], w2.log[|w1.log|], w3.log[|w2.log|], w4.log[|w3.log|]);
  }

  lemma TakenAfterSending(v: World, w: World, u: World, state: VtState, ex: ExState)
    requires SentQuietly(v, w) && TakenIn(w, u, state, ex)
    ensures Concluded(v, u, state, ex)
  {
    var n := |v.log|;
    assert u.log[n] == w.log[n] && u.log[n + 1] == w.log[n + 1];
  }

  lemma SendingConcludes(v: World, state: VtState, ex: ExState)
    requires NothingToSend(v) && state != NoTask && Closes(ex, Some(state), Some(v.mem.ex))
    ensures Concluded(v, SendEvents(v, Answering(state)), state, ex)
  {
    var e := Answering(state);
    NothingIsSent(v, e);
    ReportIsTaken(SentAll(v, e), state, ex);
    TakenAfterSending(v, SentAll(v, e), Finalize(SentAll(v, e), e), state, ex);
  }

  /** A step of an execution under way, or of one that waits for its rollback. */
  lemma StepConcludes(w: World, state: VtState, ex: ExState)
    requires NothingToSend(w) && (w.mem.vt == Executing || w.mem.vt == RollbackPending)
    requires state != NoTask && Closes(ex, Some(state), Some(Settle(w).mem.ex))
    ensures Concluded(Settle(w), Step(w, Answering(state)), state, ex)
  {
    DispatchExecutes(Settle(w), Answering(state));
    SendingConcludes(Settle(w), state, ex);
  }

  /** The first start, whose result the cloud wants to be rolled back. */
  lemma StartConcludes(w: World, max: nat)
    requires AboutToStart(w, max)
    ensures var u := Step(w, Answering(RollbackPending)); u.mem.vt == RollbackPending && NothingToSend(u)
    ensures TaskAt(Step(w, Answering(RollbackPending)).disk) == Some(RollbackPending)
  {
    var e := Answering(RollbackPending);
    DispatchExecutes(w, e);
    var w0 := Say(w, StartOf(w, e));
    assert EmitAll(w0, e.emitted) == w0;
    assert Step(w, e) == SendEvents(RecordStart(w0), e);
    SendingConcludes(RecordStart(w0), RollbackPending, Succeeded);
  }

  const ASKED: seq<Action> := FOUR_STEPS + [Do(StepOp(Answering(RollbackPending)))]

  lemma RollbackIsAskedFor(max: nat)
    ensures ActionsOK(ASKED)
    ensures var w := History(First(max), ASKED);
            w.mem.vt == RollbackPending && NothingToSend(w) && TaskAt(w.disk) == Some(RollbackPending)
  {
    var w, a := History(First(max), FOUR_STEPS), Do(StepOp(Answering(RollbackPending)));
    FourStepsLeadToStart(max);
    AnsweringIsOK(RollbackPending);
    HistoryOn(First(max), FOUR_STEPS, [a]);
    OneMoreAction(w, a);
    StartConcludes(w, max);
  }

  // -------------------------------------------------------- recorded twice, without any stop

  const RECORDED_TWICE: seq<Action> :=
    ASKED + [Do(StepOp(Answering(Executing))), Do(StepOp(Answering(Completed)))]

  /** A history without stops that ends SUCCEEDED after a rollback asked for since the last
      permit: the cloud takes the rollback and has the execution go on. */
  lemma RollbackEndsSucceeded(max: nat)
    ensures ActionsOK(RECORDED_TWICE)
    ensures var log := History(First(max), RECORDED_TWICE).log;
            exists i: nat :: Turned(log, i, Succeeded) && RollbackSincePermit(log, i)
  {
    var w := History(First(max), ASKED);
    RollbackIsAskedFor(max);
    TwoMoreSteps(max);
    GoesOnToSucceed(w);
  }

  lemma TwoMoreSteps(max: nat)
    requires ActionsOK(ASKED)
    ensures ActionsOK(RECORDED_TWICE)
    ensures History(First(max), RECORDED_TWICE)
         == Step(Step(History(First(max), ASKED), Answering(Executing)), Answering(Completed))
  {
    AnsweringIsOK(Executing);
    AnsweringIsOK(Completed);
    var a, b := Do(StepOp(Answering(Executing))), Do(StepOp(Answering(Completed)));
    HistoryOn(First(max), ASKED, [a, b]);
    TwoMoreActions(History(First(max), ASKED), a, b);
  }

  lemma GoesOnToSucceed(w: World)
    requires w.mem.vt == RollbackPending && NothingToSend(w) && TaskAt(w.disk) == Some(RollbackPending)
    ensures var log := Step(Step(w, Answering(Executing)), Answering(Completed)).log;
            exists i: nat :: Turned(log, i, Succeeded) && RollbackSincePermit(log, i)
  {
    var u := Step(w, Answering(Executing));
    StepConcludes(w, Executing, RolledBack);
    StepConcludes(u, Completed, Succeeded);
    SucceedsAfterRollback(Settle(w), u, Step(u, Answering(Completed)));
  }

  lemma SucceedsAfterRollback(w: World, u: World, v: World)
    requires Concluded(w, u, Executing, RolledBack) && Concluded(u, v, Completed, Succeeded)
    requires TaskAt(w.disk) == Some(RollbackPending) && w.mem.ex == Rollback
    ensures Turned(v.log, |u.log| + 4, Succeeded) && RollbackSincePermit(v.log, |u.log| + 4)
  {
    var j, i := |w.log|, |u.log| + 4;
    assert forall k :: 0 <= k < |u.log| ==> v.log[k] == u.log[k];
    assert InRollback(v.log[j].disk);
    assert RunAt(v.log[i - 1].disk) == Some(RolledBack);
    assert NoPermitIn(v.log, j, i);
  }

  // -------------------------------------------------------------------- lost over a rollback

  /** Two stops: between the task and the execution of a rollback that is to be retried, and
      between the task and the execution of the permit for the retry. */
  const LOST_OVER_ROLLBACK: seq<Action> :=
    ASKED + [DieIn(StepOp(Answering(RetryPending)), 4), DieIn(StepOp(Friendly(BARE_TASK)), 2)]

  lemma RetryOverRollback(w: World)
    requires w.mem.vt == RollbackPending && NothingToSend(w)
    ensures StopsOverRollback(Act(w, DieIn(StepOp(Answering(RetryPending)), 4)), DieIn(StepOp(Friendly(BARE_TASK)), 2))
  {
    StepConcludes(w, RetryPending, Failed);
    RetryIsStored(w);
    StoppedInside(w, Step(w, Answering(RetryPending)), 4);
    RetryIsLoaded(Settle(w), Step(w, Answering(RetryPending)));
  }

  lemma RetryIsStored(w: World)
    requires w.mem.vt == RollbackPending && NothingToSend(w)
    requires Concluded(Settle(w), Step(w, Answering(RetryPending)), RetryPending, Failed)
    ensures Step(w, Answering(RetryPending)).log[|w.log| + 3].disk.task == Some(VehicleTaskRec(Some(BARE_TASK), RetryPending))
  {
    var v, e := Settle(w), Answering(RetryPending);
    DispatchExecutes(v, e);
    SendingStores(v);
  }

  lemma SendingStores(v: World)
    requires NothingToSend(v) && Concluded(v, SendEvents(v, Answering(RetryPending)), RetryPending, Failed)
    ensures SendEvents(v, Answering(RetryPending)).log[|v.log| + 3].disk.task
         == Some(VehicleTaskRec(Some(BARE_TASK), RetryPending))
  {
    var e := Answering(RetryPending);
    NothingIsSent(v, e);
    FinalizeStores(SentAll(v, e), e);
  }

  lemma FinalizeStores(u: World, e: StepEnv)
    requires u.mem.task == BARE_TASK && e == Answering(RetryPending) && |Finalize(u, e).log| == |u.log| + 4
    ensures Finalize(u, e).log[|u.log| + 1].disk.task == Some(VehicleTaskRec(Some(BARE_TASK), RetryPending))
  {
  }

  lemma RetryIsLoaded(w: World, s: World)
    requires Concluded(w, s, RetryPending, Failed) && w.mem.ex == Rollback
    requires s.log[|w.log| + 3].disk.task == Some(VehicleTaskRec(Some(BARE_TASK), RetryPending))
    ensures StopsOverRollback(CutAt(s, |w.log| + 4), DieIn(StepOp(Friendly(BARE_TASK)), 2))
  {
  }

  /** A history in which a retry that was allowed is reported as the rollback before it. */
  lemma LostPermitReportsRollback(max: nat)
    ensures ActionsOK(LOST_OVER_ROLLBACK) && !RollbacksAreAskedFor(History(First(max), LOST_OVER_ROLLBACK).log)
  {
    RollbackIsAskedFor(max);
    AnsweringIsOK(RetryPending);
    FriendlyIsOK();
    var w := History(First(max), ASKED);
    var a, b := DieIn(StepOp(Answering(RetryPending)), 4), DieIn(StepOp(Friendly(BARE_TASK)), 2);
    RetryOverRollback(w);
    assert LOST_OVER_ROLLBACK == ASKED + [a] + [b];
    HistoryOn(First(max), ASKED, [a]);
    OneMoreAction(w, a);
    LastStops(First(max), ASKED + [a], b);
    RollbacksAreAskedForIff(max, LOST_OVER_ROLLBACK);
  }

  lemma {:induction false} LastStops(w: World, first: seq<Action>, last: Action)
    requires StopsOverRollback(History(w, first), last)
    ensures !NeverOverRollback(w, first + [last])
    decreases |first|
  {
    var all := first + [last];
    if first == [] {
      assert all[0] == last && History(w, first) == w;
    } else {
      assert all[0] == first[0] && all[1..] == first[1..] + [last];
      HistoryStarts(w, first);
      LastStops(Act(w, first[0]), first[1..], last);
    }
  }
}
