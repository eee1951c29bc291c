/** Where the promises end: histories in which each of them fails. */
module OrchestratorLimits {
  import opened Wrappers
  import opened Bytes
  import opened OrchestratorState
  import opened OrchestratorSpec
  import opened OrchestratorSegments
  import opened OrchestratorInvariants
  import opened OrchestratorHistory
  import opened OrchestratorBoundaries
  import opened OrchestratorPromises
  import opened OrchestratorPermits
  import opened OrchestratorCounters
  import opened OrchestratorRetries
  import opened OrchestratorReports

  // --------------------------------------------- a download that succeeds without a stage result

  predicate IsReady(d: Disk, id: Id) {
    id in d.downloads && d.downloads[id].ready
  }

  /** A package of the task from `i` on with this id comes with a stage result. */
  predicate StagedFrom(t: Task, e: StepEnv, i: nat, id: Id) {
    exists k :: i <= k < |t.packages| && t.packages[k].id == id && e.package(k).outcome.stage.Some?
  }

  lemma StagedHereOrLater(t: Task, e: StepEnv, i: nat, id: Id)
    requires i < |t.packages|
    ensures StagedFrom(t, e, i, id) <==>
              (t.packages[i].id == id && e.package(i).outcome.stage.Some?) || StagedFrom(t, e, i + 1, id)
  {
  }

  lemma FetchedReady(entry: DownloadRec, p: Package, env: PackageEnv)
    requires !entry.ready
    ensures var f := Fetch(entry, p, env);
            f.entry.packageId == entry.packageId
            && (!f.failed && !f.heldBack ==> (f.entry.ready <==> env.outcome.stage.Some?))
  {
  }

  lemma {:induction false} HeldBackStays(w: World, e: StepEnv, i: nat, allReady: bool)
    requires i <= |w.mem.task.packages| && DownloadFrom(w, e, i, allReady).mem.vt == Ready
    ensures allReady
    decreases |w.mem.task.packages| - i
  {
    if i < |w.mem.task.packages| {
      var p := w.mem.task.packages[i];
      var entry := DownloadEntry(w.disk, p);
      if entry.ready {
        HeldBackStays(w, e, i + 1, allReady);
      } else {
        var f := Fetch(entry, p, e.package(i));
        if !f.failed {
          HeldBackStays(SaveDownload(w, f.entry), e, i + 1, allReady && !f.heldBack);
        }
      }
    }
  }

  /** The world after package `i`, when everything ends well. */
  function After(w: World, e: StepEnv, i: nat): World
    requires i < |w.mem.task.packages|
  {
    var p := w.mem.task.packages[i];
    if DownloadEntry(w.disk, p).ready then w else SaveDownload(w, Fetch(DownloadEntry(w.disk, p), p, e.package(i)).entry)
  }

  lemma EndsWell(w: World, e: StepEnv, i: nat, id: Id)
    requires i < |w.mem.task.packages| && DownloadsKeyed(w.disk.downloads)
    requires DownloadFrom(w, e, i, true).mem.vt == Ready
    ensures var p, v := w.mem.task.packages[i], After(w, e, i);
            && DownloadFrom(w, e, i, true) == DownloadFrom(v, e, i + 1, true)
            && v.mem == w.mem && DownloadsKeyed(v.disk.downloads)
            && (IsReady(v.disk, id) <==>
                  IsReady(w.disk, id) || (p.id == id && e.package(i).outcome.stage.Some?))
  {
    var p := w.mem.task.packages[i];
    if !DownloadEntry(w.disk, p).ready {
      var f := Fetch(DownloadEntry(w.disk, p), p, e.package(i));
      FetchedReady(DownloadEntry(w.disk, p), p, e.package(i));
      assert !f.failed;
      HeldBackStays(After(w, e, i), e, i + 1, !f.heldBack);
    }
  }

  /** With every outcome good, a package ends ready exactly when it was or is staged. */
  lemma {:induction false} ReadyEndsExactly(w: World, e: StepEnv, i: nat, id: Id)
    requires i <= |w.mem.task.packages| && DownloadsKeyed(w.disk.downloads)
    requires DownloadFrom(w, e, i, true).mem.vt == Ready
    ensures IsReady(DownloadFrom(w, e, i, true).disk, id) <==> IsReady(w.disk, id) || StagedFrom(w.mem.task, e, i, id)
    decreases |w.mem.task.packages| - i
  {
    if i < |w.mem.task.packages| {
      EndsWell(w, e, i, id);
      StagedHereOrLater(w.mem.task, e, i, id);
      ReadyEndsExactly(After(w, e, i), e, i + 1, id);
    }
  }

  /** A download step that moves on to READY leaves every package record ready if and only if
      every package not ready before came with a stage result, also when a task names a package
      more than once. */
  lemma ReadyIffStaged(w: World, e: StepEnv)
    requires DownloadsKeyed(w.disk.downloads)
    requires (w.mem.vt == DownloadPending || w.mem.vt == Downloading) && Step(w, e).mem.vt == Ready
    ensures AllReady(w.mem.task, Step(w, e).disk.downloads)
            <==> forall i :: 0 <= i < |w.mem.task.packages| ==>
                   var id := w.mem.task.packages[i].id; IsReady(w.disk, id) || StagedFrom(w.mem.task, e, 0, id)
  {
    forall i | 0 <= i < |w.mem.task.packages|
      ensures var id := w.mem.task.packages[i].id;
              IsReady(Step(w, e).disk, id) <==> IsReady(w.disk, id) || StagedFrom(w.mem.task, e, 0, id)
    {
      ReadyEndsExactly(w, e, 0, w.mem.task.packages[i].id);
    }
  }

  // ------------------------------------------------------------------ histories that fail

  const PACKAGED_TASK: Task := Task("VT-1", 1, false, [Package("P-1", "R-1")], 0, 10, [])
  const BARE_TASK: Task := Task("VT-1", 1, false, [], 0, 10, [])

  const PERMIT: Permit :=
    Permit(Some("EX-1"), Some(1), "PM-1", "token", 1, None, None, None, None)

  /** A cloud with this task that allows everything, and an installer that starts and hands
      over one event. */
  function Friendly(task: Task): StepEnv {
    StepEnv(Some(TaskFound(task)), None,
            n => PackageEnv(Some(Grant(None, "")), Outcome(task.packages != [], None, 0), None),
            5, true, Some(Some(PERMIT)), true, true, [[1]], n => Some(EventAccepted), None)
  }

  /** The same, but no report of an event gets through. */
  function Deaf(task: Task): StepEnv {
    Friendly(task).(report := n => None)
  }

  lemma FriendlyIsOK()
    ensures EnvOK(Friendly(BARE_TASK)) && EnvOK(Deaf(BARE_TASK)) && !Staged(Friendly(PACKAGED_TASK))
  {
    var e := Friendly(PACKAGED_TASK);
    assert e.package(0).outcome.succeeded && e.package(0).outcome.stage.None?;
  }

  /** Without the assumption on stage results: two steps lead to READY with a package that is
      not ready. */
  lemma UnstagedDownloadIsNotReady(max: nat)
    ensures var e := Friendly(PACKAGED_TASK);
            var w := Step(Step(First(max), e), e);
            w.mem.vt == Ready && w.mem.task == PACKAGED_TASK && !AllReady(w.mem.task, w.disk.downloads)
  {
    var e := Friendly(PACKAGED_TASK);
    var v := Step(First(max), e);
    assert v == Accept(First(max), PACKAGED_TASK);
    assert v.mem.vt == DownloadPending && v.mem.task == PACKAGED_TASK && v.disk.downloads == map[];
    OnlyPackage(v, e);
    ReadyIffStaged(v, e);
    assert v.mem.task.packages[0].id == "P-1";
    assert !StagedFrom(v.mem.task, e, 0, "P-1");
  }

  lemma OnlyPackage(v: World, e: StepEnv)
    requires e == Friendly(PACKAGED_TASK) && v.mem.task == PACKAGED_TASK && v.mem.vt == DownloadPending
    requires v.disk.downloads == map[]
    ensures Step(v, e).mem.vt == Ready && Step(v, e).mem.task == v.mem.task
  {
    var p := v.mem.task.packages[0];
    var f := Fetch(DownloadEntry(v.disk, p), p, e.package(0));
    assert !f.failed && !f.heldBack;
    assert DownloadFrom(v, e, 0, true) == DownloadFrom(SaveDownload(v, f.entry), e, 1, true);
    assert Step(v, e) == DownloadFrom(v, e, 0, true);
  }

  /** The first permit has just been stored. */
  predicate AboutToStart(w: World, max: nat) {
    && Due(w.mem) && w.mem.task == BARE_TASK && w.mem.next == 1 && w.mem.accepted == 0 && w.max == max
    && w.disk.task == Some(VehicleTaskRec(Some(BARE_TASK), Executing))
    && w.disk.execution.Some? && w.disk.meta == Some(MetaRec(1, 0)) && w.disk.events == map[]
    && w.tally.starts == 0 && w.tally.permits == 1
  }

  /** Detecting the task, nothing to download, waiting for the window, being allowed. */
  const FOUR_STEPS: seq<Action> :=
    [Do(StepOp(Friendly(BARE_TASK))), Do(StepOp(Friendly(BARE_TASK))), Do(StepOp(Friendly(BARE_TASK))),
     Do(StepOp(Friendly(BARE_TASK)))]

  /** Three steps of a process that has loaded nothing: it waits for the install window. */
  lemma ThreeSteps(w: World)
    requires w.mem == FRESH
    ensures var e := Friendly(BARE_TASK);
            var u := Step(Step(Step(w, e), e), e);
            && u.mem == FRESH.(vt := WaitingWindow, task := BARE_TASK) && u.tally == w.tally && u.max == w.max
            && u.disk == w.disk.(task := Some(VehicleTaskRec(Some(BARE_TASK), WaitingWindow)))
  {
    var e := Friendly(BARE_TASK);
    var w1 := Step(w, e);
    assert w1 == Accept(w, BARE_TASK) && w1.mem.vt == DownloadPending;
    var w2 := Step(w1, e);
    assert w2 == MoveTo(w1, Ready);
    assert Step(w2, e) == MoveTo(w2, WaitingWindow);
  }

  lemma FourSteps(w: World)
    ensures var e := Friendly(BARE_TASK); History(w, FOUR_STEPS) == Step(Step(Step(Step(w, e), e), e), e)
  {
    var a := Do(StepOp(Friendly(BARE_TASK)));
    assert FOUR_STEPS == [a, a] + [a, a];
    HistoryOn(w, [a, a], [a, a]);
    TwoMoreActions(w, a, a);
    TwoMoreActions(Act(Act(w, a), a), a, a);
  }

  lemma FourthStep(w: World)
    requires w.mem.vt == WaitingWindow && w.mem.task == BARE_TASK && w.mem.next == 1 && w.mem.accepted == 0
    requires w.disk.events == map[] && w.tally.starts == 0 && w.tally.permits == 0
    ensures AboutToStart(Step(w, Friendly(BARE_TASK)), w.max)
  {
    assert Step(w, Friendly(BARE_TASK)) == RequestPermit(w, Friendly(BARE_TASK));
  }

  /** Four steps lead to a first start. */
  lemma FourStepsLeadToStart(max: nat)
    ensures ActionsOK(FOUR_STEPS) && BetweenOnly(FOUR_STEPS)
    ensures var w := History(First(max), FOUR_STEPS); AboutToStart(w, max) && Inv(w) && Agrees(w) && PermitLeft(w)
  {
    FourStepsAreOK();
    ThreeSteps(First(max));
    var e := Friendly(BARE_TASK);
    FourSteps(First(max));
    FourthStep(Step(Step(Step(First(max), e), e), e));
    FourStepsKeep(max);
  }

  lemma FourStepsAreOK()
    ensures ActionsOK(FOUR_STEPS) && BetweenOnly(FOUR_STEPS)
  {
    FriendlyIsOK();
  }

  lemma FourStepsKeep(max: nat)
    requires BetweenOnly(FOUR_STEPS)
    ensures var w := History(First(max), FOUR_STEPS); Inv(w) && Agrees(w)
  {
    FirstIsSound(max);
    FirstIsSteady(max);
    HistoryAgrees(First(max), FOUR_STEPS);
  }

  /** A history that ends with a stop that breaks a promise. */
  lemma {:induction false} LastBreaks(p: Promise, w: World, first: seq<Action>, last: Action)
    requires Breaks(p, History(w, first), last)
    ensures !NeverBreaks(p, w, first + [last])
    decreases |first|
  {
    var all := first + [last];
    if first == [] {
      assert all[0] == last && History(w, first) == w;
    } else {
      assert all[0] == first[0] && all[1..] == first[1..] + [last];
      HistoryStarts(w, first);
      LastBreaks(p, Act(w, first[0]), first[1..], last);
    }
  }

  lemma NextMomentStarts(v: World, e: StepEnv)
    requires Attempts(v, e)
    ensures |v.log| < |Step(v, e).log|
    ensures Step(v, e).log[|v.log|].call == StartOf(v, e)
    ensures Step(v, e).log[|v.log|].tally == Counted(v.tally, StartOf(v, e))
  {
    AttemptInParts(v, e);
    StartMoments(v, e, |v.log|);
    assert Step(v, e).log[|v.log|] == Start(v, e).log[|v.log|];
  }

  lemma LostMoment(w: World, e: StepEnv, v: World, n: nat)
    requires LosesStart(w, StepOp(e), n) && Start(w, e).log <= v.log && |w.log| + n <= |Start(w, e).log|
    ensures var t := v.log[|w.log| + n - 1].tally; t.starts == t.permits
  {
    StartMoments(w, e, |w.log| + n - 1);
    assert v.log[|w.log| + n - 1] == Start(w, e).log[|w.log| + n - 1];
  }

  lemma LostStartTally(w: World, op: Op, n: nat)
    requires LosesStart(w, op, n)
    ensures var t := Act(w, DieIn(op, n)).tally; t.starts == t.permits
  {
    AttemptInParts(w, op.env);
    LostMoment(w, op.env, Perform(w, op), n);
    StoppedInside(w, Perform(w, op), n);
  }

  lemma LostStartIsDue(w: World, op: Op, n: nat)
    requires Inv(w) && Agrees(w) && PermitLeft(w) && OpOK(op) && LosesStart(w, op, n)
    ensures var v := Act(w, DieIn(op, n)); Due(v.mem) && v.tally.starts == v.tally.permits
  {
    CutKeepsPermitLeftIff(w, op, n);
    LostStartTally(w, op, n);
  }

  /** Once a start has been lost, the next one that succeeds is one too many. */
  lemma LostStartIsRepeated(w: World, op: Op, n: nat, e: StepEnv)
    requires Inv(w) && Agrees(w) && PermitLeft(w) && OpOK(op) && LosesStart(w, op, n)
    requires e.prepared && e.started
    ensures var v := Act(w, DieIn(op, n));
            && |v.log| < |Step(v, e).log| && Step(v, e).log[|v.log|].call.StartCalled?
            && Step(v, e).log[|v.log|].tally.starts == Step(v, e).log[|v.log|].tally.permits + 1
  {
    LostStartIsDue(w, op, n);
    NextMomentStarts(Act(w, DieIn(op, n)), e);
  }

  /** A history in which two starts share one permit: the process dies right after the installer
      was started, and the next one starts it again. */
  lemma CrashAfterStartStartsAgain(max: nat)
    ensures var e := Friendly(BARE_TASK);
            var first := FOUR_STEPS + [DieIn(StepOp(e), 1)];
            var v := History(First(max), first);
            && ActionsOK(first) && !NeverBreaks(BUDGET, First(max), first)
            && |v.log| < |Step(v, e).log| && Step(v, e).log[|v.log|].call.StartCalled?
            && Step(v, e).log[|v.log|].tally.starts == Step(v, e).log[|v.log|].tally.permits + 1
  {
    var e := Friendly(BARE_TASK);
    var a := DieIn(StepOp(e), 1);
    FourStepsLeadToStart(max);
    FriendlyIsOK();
    var w := History(First(max), FOUR_STEPS);
    HistoryOn(First(max), FOUR_STEPS, [a]);
    OneMoreAction(w, a);
    assert LosesStart(w, StepOp(e), 1);
    LostStartIsRepeated(w, StepOp(e), 1, e);
    LastBreaks(BUDGET, First(max), FOUR_STEPS, a);
  }

  const THREE_STEPS: seq<Action> :=
    [Do(StepOp(Friendly(BARE_TASK))), Do(StepOp(Friendly(BARE_TASK))), Do(StepOp(Friendly(BARE_TASK)))]

  lemma ThreeStepsAsHistory(max: nat)
    ensures var e := Friendly(BARE_TASK);
            && ActionsOK(THREE_STEPS) && History(First(max), THREE_STEPS) == Step(Step(Step(First(max), e), e), e)
  {
    FriendlyIsOK();
    var a := Do(StepOp(Friendly(BARE_TASK)));
    assert THREE_STEPS == [a, a] + [a];
    HistoryOn(First(max), [a, a], [a]);
    TwoMoreActions(First(max), a, a);
    OneMoreAction(Act(Act(First(max), a), a), a);
  }

  lemma ThreeStepsAndDie(max: nat)
    ensures var e := Friendly(BARE_TASK);
            var first := THREE_STEPS + [DieIn(StepOp(e), 2)];
            && ActionsOK(first)
            && History(First(max), first) == Act(Step(Step(Step(First(max), e), e), e), DieIn(StepOp(e), 2))
  {
    var e := Friendly(BARE_TASK);
    FriendlyIsOK();
    ThreeStepsAsHistory(max);
    HistoryOn(First(max), THREE_STEPS, [DieIn(StepOp(e), 2)]);
    OneMoreAction(Step(Step(Step(First(max), e), e), e), DieIn(StepOp(e), 2));
  }

  lemma ThreeStepsAwaitPermit(max: nat)
    ensures Breaks(CURRENT, History(First(max), THREE_STEPS), DieIn(StepOp(Friendly(BARE_TASK)), 2))
  {
    ThreeSteps(First(max));
    ThreeStepsAsHistory(max);
  }

  /** A history in which the installer is started without the permit that was allowed: the
      process dies when the new state is durable and the execution is not. */
  lemma CrashBeforePermitStartsWithout(max: nat)
    ensures var e := Friendly(BARE_TASK);
            var first := THREE_STEPS + [DieIn(StepOp(e), 2)];
            var v := History(First(max), first);
            && ActionsOK(first) && !NeverBreaks(CURRENT, First(max), first)
            && |v.log| < |Step(v, e).log| && !HandsOverCurrent(Step(v, e).log[|v.log|])
            && Step(v, e).log[|v.log|].tally.granted == Some(PermitRead(PERMIT))
            && Step(v, e).log[|v.log|].call == StartCalled(true, PermitRead(NO_PERMIT))
  {
    var e := Friendly(BARE_TASK);
    ThreeStepsAwaitPermit(max);
    LastBreaks(CURRENT, First(max), THREE_STEPS, DieIn(StepOp(e), 2));
    ThreeStepsAndDie(max);
    ThreeStepsCut(max);
    NextMomentStarts(History(First(max), THREE_STEPS + [DieIn(StepOp(e), 2)]), e);
  }

  lemma ThreeStepsCut(max: nat)
    ensures var e := Friendly(BARE_TASK);
            var v := Act(Step(Step(Step(First(max), e), e), e), DieIn(StepOp(e), 2));
            Due(v.mem) && v.mem.permit == NO_PERMIT && v.tally.granted == Some(PermitRead(PERMIT))
  {
    var e := Friendly(BARE_TASK);
    ThreeSteps(First(max));
    GrantIsCut(Step(Step(Step(First(max), e), e), e), e);
  }

  lemma GrantIsCut(w: World, e: StepEnv)
    requires e == Friendly(BARE_TASK) && w.mem.vt == WaitingWindow && w.mem.task == BARE_TASK
    requires w.disk.execution.None?
    ensures var v := Act(w, DieIn(StepOp(e), 2));
            && Due(v.mem) && v.mem.permit == NO_PERMIT && v.tally.granted == Some(PermitRead(PERMIT))
  {
    var w1 := Say(w, GrantOf(PERMIT));
    assert Step(w, e) == RequestPermit(w, e) == TakePermit(w1, PERMIT);
    TakeMoments(w1, PERMIT);
    assert Step(w, e).log[|w.log| + 1]
        == Moment(Wrote, w.disk.(task := Some(VehicleTaskRec(Some(BARE_TASK), Executing))), w1.tally);
  }

  // ------------------------------------------------- a retry that is allowed and never started

  /** An install that hands over no event, with a cloud that wants it to be tried again. */
  function Retrying(): StepEnv {
    Friendly(BARE_TASK).(emitted := [], final := Some(FinalReply(true, RetryPending)))
  }

  /** The first attempt is over, and the next one waits for its permit. */
  lemma RetryIsPending(w: World)
    requires Due(w.mem) && w.disk.meta == Some(MetaRec(1, 0)) && w.mem.next == 1 && w.mem.task == BARE_TASK
    ensures SkipsStart(Step(w, Retrying()), StepOp(Retrying()), 2)
  {
    var e := Retrying();
    DispatchExecutes(w, e);
    var w0 := Say(w, StartOf(w, e));
    assert EmitAll(w0, e.emitted) == w0;
    assert Step(w, e) == SendEvents(RecordStart(w0), e);
    FirstAttemptEnds(RecordStart(w0), e);
  }

  lemma FirstAttemptEnds(v: World, e: StepEnv)
    requires MetaOf(v.disk.meta).next == 1 && e.final == Some(FinalReply(true, RetryPending))
    ensures var u := SendEvents(v, e).mem; u.vt == RetryPending && u.ex == Failed && u.task == v.mem.task
  {
    assert SendUpTo(v, e, 1) == (v, false);
    SendEventsInParts(v, e);
    RetryIsAsked(SentAll(v, e), e);
  }

  lemma RetryIsAsked(w: World, e: StepEnv)
    requires e.final == Some(FinalReply(true, RetryPending))
    ensures var u := Finalize(w, e).mem; u.vt == RetryPending && u.ex == Failed && u.task == w.mem.task
  {
  }

  lemma RetryingIsOK()
    ensures EnvOK(Retrying()) && forall n :: Retrying().report(n) == Some(EventAccepted)
  {
    FriendlyIsOK();
  }

  const RETRY: seq<Action> := FOUR_STEPS + [Do(StepOp(Retrying()))]

  lemma RetryIsReached(max: nat)
    ensures ActionsOK(RETRY) && SkipsStart(History(First(max), RETRY), StepOp(Retrying()), 2)
  {
    var w, a := History(First(max), FOUR_STEPS), Do(StepOp(Retrying()));
    FourStepsLeadToStart(max);
    RetryingIsOK();
    HistoryOn(First(max), FOUR_STEPS, [a]);
    OneMoreAction(w, a);
    RetryIsPending(w);
  }

  lemma RetryAgrees(max: nat)
    requires ActionsOK(RETRY)
    ensures Inv(History(First(max), RETRY)) && Agrees(History(First(max), RETRY))
  {
    FirstIsSound(max);
    FirstIsSteady(max);
    HistoryAgrees(First(max), RETRY);
  }

  /** A history in which a result is reported for an attempt that was allowed and never started:
      the process dies between the state and the execution of the retry. */
  lemma CrashInRetryReportsUnstarted(max: nat)
    ensures var first := RETRY + [DieIn(StepOp(Retrying()), 2)];
            var v := History(First(max), first);
            var log := Step(v, Retrying()).log;
            && ActionsOK(first) && !NeverBreaks(RESULTS, First(max), first)
            && exists i :: |v.log| <= i < |log| && log[i].call.FinalReported? && !StartedSincePermit(log, i)
  {
    var a := DieIn(StepOp(Retrying()), 2);
    RetryIsReached(max);
    RetryAgrees(max);
    RetryingIsOK();
    HistoryOn(First(max), RETRY, [a]);
    OneMoreAction(History(First(max), RETRY), a);
    CutRetrySkipsStart(History(First(max), RETRY), Retrying(), Retrying());
    LastBreaks(RESULTS, First(max), RETRY, a);
    ReportIsUnstarted(max, RETRY + [a], Retrying());
  }

  lemma ReportIsUnstarted(max: nat, actions: seq<Action>, e: StepEnv)
    requires ActionsOK(actions) && EnvOK(e)
    ensures var log := Step(History(First(max), actions), e).log;
            forall i :: 0 <= i < |log| && !log[i].tally.begun ==> !StartedSincePermit(log, i)
  {
    FirstIsSound(max);
    HistoryIsSound(First(max), actions);
    var v := History(First(max), actions);
    StepKeeps(v, e);
    var log := Step(v, e).log;
    assert log[0] == v.log[0] == First(max).log[0];
    forall i | 0 <= i < |log| && !log[i].tally.begun
      ensures !StartedSincePermit(log, i)
    {
      BegunIff(log, max, i);
    }
  }

  // ---------------------------------------------------------------- a task with no field set

  /** An event, a task with no field set, and a new process. */
  const EMPTY_TASK: seq<Action> := [Do(EmitOp([1])), Do(StepOp(Friendly(DEFAULT_TASK))), RestartNow]

  /** Event 1 exists, and the counters are these. */
  predicate EventAnd(d: Disk, meta: MetaRec) {
    1 in d.events && d.events[1] == EventRec(1, [1], Pending) && d.meta == Some(meta)
  }

  lemma EmptyTaskIsStored(max: nat)
    requires max >= 1
    ensures var w := History(First(max), EMPTY_TASK);
            w.mem == FRESH && EventAnd(w.disk, MetaRec(2, 0)) && WithoutSnapshot(w.disk) && w.max == max
  {
    var w1 := Emit(First(max), [1]);
    var w2 := Step(w1, Friendly(DEFAULT_TASK));
    assert w2 == Accept(w1, DEFAULT_TASK);
    assert EMPTY_TASK == [EMPTY_TASK[0], EMPTY_TASK[1]] + [RestartNow];
    HistoryOn(First(max), [EMPTY_TASK[0], EMPTY_TASK[1]], [RestartNow]);
    TwoMoreActions(First(max), EMPTY_TASK[0], EMPTY_TASK[1]);
    OneMoreAction(w2, RestartNow);
    RestartKeepsNumberIff(w2);
  }

  lemma FourStepsResetCounters(w: World)
    requires w.mem == FRESH
    ensures var u := History(w, FOUR_STEPS);
            u.disk.meta == Some(MetaRec(1, 0)) && u.disk.events == w.disk.events && u.max == w.max
  {
    var e := Friendly(BARE_TASK);
    FourSteps(w);
    ThreeSteps(w);
    var u := Step(Step(Step(w, e), e), e);
    GrantSteps(u, e);
  }

  /** A history that loses an event: without the assumption on detected tasks the number on disk
      goes back from 2 to 1 with event 1 in place, and the next emit overwrites it. */
  lemma DefaultTaskLosesEvent(max: nat, payload: ByteString)
    requires max >= 1
    ensures var w := History(First(max), EMPTY_TASK);
            var v := History(First(max), EMPTY_TASK + FOUR_STEPS);
            && EventAnd(w.disk, MetaRec(2, 0)) && EventAnd(v.disk, MetaRec(1, 0))
            && 1 in Emit(v, payload).disk.events && Emit(v, payload).disk.events[1] == EventRec(1, payload, Pending)
  {
    EmptyTaskIsStored(max);
    HistoryOn(First(max), EMPTY_TASK, FOUR_STEPS);
    FourStepsResetCounters(History(First(max), EMPTY_TASK));
    EventIsOverwritten(History(First(max), EMPTY_TASK + FOUR_STEPS), payload);
  }

  lemma EventIsOverwritten(v: World, payload: ByteString)
    requires v.disk.meta == Some(MetaRec(1, 0)) && v.max >= 1
    ensures var d := Emit(v, payload).disk; 1 in d.events && d.events[1] == EventRec(1, payload, Pending)
  {
  }

  // ----------------------------------------- a crash between an acknowledgement and its watermark

  /** Event 1 is the only one, has a payload and has not been sent; the install is under way. */
  predicate OneEventToSend(w: World) {
    && w.mem.vt == Executing && w.mem.ex == InstallStarted && w.mem.next == 2 && w.mem.accepted == 0
    && w.disk.meta == Some(MetaRec(2, 0))
    && 1 in w.disk.events && w.disk.events[1] == EventRec(1, [1], Pending)
    && w.disk.task == Some(VehicleTaskRec(Some(BARE_TASK), Executing))
    && w.disk.execution.Some? && w.disk.execution.value.state == InstallStarted
  }

  /** The first start, when no report gets through. */
  lemma DeafStart(w: World, max: nat)
    requires AboutToStart(w, max) && max >= 1
    ensures OneEventToSend(Step(w, Deaf(BARE_TASK)))
  {
    var e := Deaf(BARE_TASK);
    DispatchExecutes(w, e);
    var w0 := Say(w, StartOf(w, e));
    assert e.emitted == [[1]] && [[1]][..0] == [];
    assert EmitAll(w0, []) == w0;
    assert EmitAll(w0, e.emitted) == Emit(w0, [1]);
    assert !OutboxFull(w0);
    var w1 := Start(w, e);
    assert w1.mem.next == 2 && w1.disk.events == map[1 := EventRec(1, [1], Pending)];
    DeafSend(RecordStart(w1), e);
    assert Step(w, e) == SendEvents(RecordStart(w1), e);
  }

  lemma DeafSend(w: World, e: StepEnv)
    requires OneEventToSend(w) && e.report(1) == None
    ensures OneEventToSend(SendEvents(w, e))
  {
    assert SendUpTo(w, e, 1) == (w, false);
    var w1 := SaveEvent(w, w.disk.events[1]);
    assert SendOne(w, e, 1) == (w1, true);
    assert SendUpTo(w, e, 2) == (w1, true);
    SendEventsInParts(w, e);
  }

  function Acknowledged(w: World): World
    requires OneEventToSend(w)
  {
    SaveEvent(w.(mem := w.mem.(accepted := 1)), w.disk.events[1].(status := Acked))
  }

  lemma FriendlySend(w: World, e: StepEnv)
    requires OneEventToSend(w) && e.report(1) == Some(EventAccepted)
    ensures SendUpTo(w, e, 2) == (Acknowledged(w), false)
  {
    assert SendUpTo(w, e, 1) == (w, false);
    assert SendOne(w, e, 1) == (Acknowledged(w), false);
  }

  /** The process dies when the acknowledgement is durable and the watermark is not. */
  lemma CutBeforeWatermark(w: World, e: StepEnv)
    requires OneEventToSend(w) && e.report(1) == Some(EventAccepted)
    ensures var v := Act(w, DieIn(StepOp(e), 1));
            v.log == Acknowledged(w).log && v.disk == Acknowledged(w).disk && v.mem == LoadFromStore(v.disk)
  {
    DispatchExecutes(w, e);
    FriendlySend(w, e);
    SendEventsInParts(w, e);
    var a, u := Acknowledged(w), SentAll(w, e);
    PersistExecutionWrites(SaveWatermark(MetaRec(2, 0), a));
    FinalizeWrites(u, e);
    assert a.log <= u.log <= Finalize(u, e).log && |a.log| == |w.log| + 1;
    var s := Step(w, e);
    assert s == Finalize(u, e);
    assert s.log[..|a.log|] == a.log && s.log[|w.log|] == a.log[|w.log|];
  }

  /** Event 1 is acknowledged on disk, and the process that loads it knows no watermark. */
  predicate Forgotten(v: World) {
    && v.mem.vt == Executing && v.mem.ex == InstallStarted && v.mem.next == 2 && v.mem.accepted == 0
    && v.disk.meta == Some(MetaRec(2, 0)) && 1 in v.disk.events && v.disk.events[1] == EventRec(1, [1], Acked)
  }

  /** The only event is acknowledged, and the final number reported is 0 instead of 1. */
  predicate Misreported(m: Moment) {
    && m.call == FinalReported(0, false) && MetaOf(m.disk.meta).next == 2
    && 1 in m.disk.events && m.disk.events[1] == EventRec(1, [1], Acked)
  }

  lemma ForgottenMisreports(v: World, e: StepEnv)
    requires Forgotten(v)
    ensures |v.log| + 2 < |Step(v, e).log| && Misreported(Step(v, e).log[|v.log| + 2])
  {
    DispatchExecutes(v, e);
    assert SendUpTo(v, e, 1) == (v, false);
    assert SendUpTo(v, e, 2) == (v, false);
    SendEventsInParts(v, e);
    var u := PersistExecution(v);
    assert SentAll(v, e) == u && |u.log| == |v.log| + 2;
    FinalizeWrites(u, e);
    FinalizeReports(u, e);
  }

  lemma ForgottenDoesNotCount(v: World, e: StepEnv)
    requires Forgotten(v)
    ensures !LastCounts(v, e)
  {
  }

  lemma WatermarkIsForgotten(w: World, max: nat)
    requires AboutToStart(w, max) && max >= 1
    ensures Forgotten(Act(Step(w, Deaf(BARE_TASK)), DieIn(StepOp(Friendly(BARE_TASK)), 1)))
  {
    DeafStart(w, max);
    CutBeforeWatermark(Step(w, Deaf(BARE_TASK)), Friendly(BARE_TASK));
  }

  const DEAF_AND_DEAD: seq<Action> := [Do(StepOp(Deaf(BARE_TASK))), DieIn(StepOp(Friendly(BARE_TASK)), 1)]

  lemma DeafAndDead(max: nat)
    requires max >= 1
    ensures ActionsOK(FOUR_STEPS + DEAF_AND_DEAD) && Forgotten(History(First(max), FOUR_STEPS + DEAF_AND_DEAD))
  {
    FourStepsLeadToStart(max);
    FriendlyIsOK();
    WatermarkIsForgotten(History(First(max), FOUR_STEPS), max);
    HistoryOn(First(max), FOUR_STEPS, DEAF_AND_DEAD);
    TwoMoreActions(History(First(max), FOUR_STEPS), DEAF_AND_DEAD[0], DEAF_AND_DEAD[1]);
  }

  /** A history that ends with a final number of 0 although event 1, with a payload, has been
      acknowledged: the process dies after the acknowledgement and before the watermark. */
  lemma CrashBeforeWatermarkMisreports(max: nat)
    requires max >= 1
    ensures var v, e := History(First(max), FOUR_STEPS + DEAF_AND_DEAD), Friendly(BARE_TASK);
            && ActionsOK(FOUR_STEPS + DEAF_AND_DEAD) && !LastCounts(v, e)
            && |v.log| + 2 < |Step(v, e).log| && Misreported(Step(v, e).log[|v.log| + 2])
  {
    DeafAndDead(max);
    ForgottenDoesNotCount(History(First(max), FOUR_STEPS + DEAF_AND_DEAD), Friendly(BARE_TASK));
    ForgottenMisreports(History(First(max), FOUR_STEPS + DEAF_AND_DEAD), Friendly(BARE_TASK));
  }
}
