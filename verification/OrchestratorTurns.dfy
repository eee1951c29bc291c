/** How the stored task and the stored execution turn from one state into another, told on
    neighbouring moments of a history. */
module OrchestratorTurns {
  import opened Wrappers
  import opened Bytes
  import opened OrchestratorState
  import opened OrchestratorSpec
  import opened OrchestratorSegments
  import opened OrchestratorInvariants
  import opened OrchestratorHistory
  import opened OrchestratorBoundaries
  import opened OrchestratorPermits
  import opened OrchestratorRetries

  /** The stored state of the task. */
  function TaskAt(d: Disk): Option<VtState> {
    match d.task
    case None => None
    case Some(r) => Some(r.state)
  }

  /** The stored state of the execution. */
  function RunAt(d: Disk): Option<ExState> {
    match d.execution
    case None => None
    case Some(r) => Some(r.state)
  }

  predicate Begun(run: Option<ExState>) {
    run.Some? && !NotYetStarted(run.value)
  }

  predicate InHand(task: Option<VtState>) {
    task == Some(Executing) || task == Some(RollbackPending)
  }

  // ------------------------------------------------------------------------------- the law

  /** What a final result makes of an execution, by the task state stored just before and the
      execution state it replaces. */
  predicate Closes(ex: ExState, task: Option<VtState>, before: Option<ExState>) {
    || (ex == Failed && task == Some(RetryPending))
    || (ex == RolledBack && task != Some(RetryPending) && before == Some(Rollback))
    || (ex == Succeeded && task != Some(RetryPending) && before != Some(Rollback))
  }

  /** A permit was given `back` moments before moment `i`, in the operation that begins at `lo`. */
  predicate ByPermit(log: seq<Moment>, lo: nat, i: nat, back: nat)
    requires i < |log|
  {
    lo + back <= i && log[i - back].call.PermitGranted?
  }

  /** The same for a final report. */
  predicate ByReport(log: seq<Moment>, lo: nat, i: nat, back: nat)
    requires i < |log|
  {
    lo + back <= i && log[i - back].call.FinalReported?
  }

  /** The execution turns: when the permit is stored, the start recorded, a rollback begun, or
      a final result taken; and the task stays. */
  predicate RunTurns(log: seq<Moment>, lo: nat, i: nat)
    requires 0 < i < |log|
  {
    var before, task, run := RunAt(log[i - 1].disk), TaskAt(log[i].disk), RunAt(log[i].disk);
    run != before ==>
      && TaskAt(log[i - 1].disk) == task && run.Some?
      && match run.value
         case PermitPersisted => task == Some(Executing) && ByPermit(log, lo, i, 2)
         case InstallStarted => task == Some(Executing) && !Begun(before)
         case Rollback => task == Some(RollbackPending)
         case ex => Begun(before) && Closes(ex, task, before) && ByReport(log, lo, i, 2) && log[i - 1].call == Wrote
  }

  /** The task turns, and the execution stays: it starts executing only right after a permit or
      a final result, stops only right after a final result, and leaves a pending retry only
      right after a permit. */
  predicate TaskTurns(log: seq<Moment>, lo: nat, i: nat)
    requires 0 < i < |log|
  {
    var before, task := TaskAt(log[i - 1].disk), TaskAt(log[i].disk);
    task != before ==>
      && RunAt(log[i].disk) == RunAt(log[i - 1].disk)
      && (task == Some(Executing) ==> ByPermit(log, lo, i, 1) || ByReport(log, lo, i, 1))
      && (InHand(before) ==> ByReport(log, lo, i, 1))
      && (before == Some(RetryPending) ==> ByPermit(log, lo, i, 1))
  }

  /** Calls leave both as they are. A permit is given only while none is executed; a result is
      reported only for an execution that has begun, as a rollback if and only if it is one, and
      for a task that waits for its rollback only as a rollback. */
  predicate CallFits(log: seq<Moment>, i: nat)
    requires 0 < i < |log|
  {
    var m := log[i];
    && (m.call != Wrote ==> TaskAt(m.disk) == TaskAt(log[i - 1].disk) && RunAt(m.disk) == RunAt(log[i - 1].disk))
    && (m.call.PermitGranted? ==> !InHand(TaskAt(m.disk)))
    && (m.call.FinalReported? ==>
          && InHand(TaskAt(m.disk)) && Begun(RunAt(m.disk))
          && (m.call.rolledBack <==> RunAt(m.disk) == Some(Rollback))
          && (TaskAt(m.disk) == Some(RollbackPending) ==> m.call.rolledBack))
  }

  predicate Moves(log: seq<Moment>, lo: nat, i: nat)
    requires 0 < i < |log|
  {
    RunTurns(log, lo, i) && TaskTurns(log, lo, i) && CallFits(log, i)
  }

  ghost predicate MovesIn(w: World, v: World) {
    && 0 < |w.log| && w.log <= v.log
    && forall i :: |w.log| <= i < |v.log| ==> Moves(v.log, |w.log|, i)
  }

  /** The log ends in the present disk. */
  predicate Ends(w: World) {
    w.log != [] && w.log[|w.log| - 1].disk == w.disk
  }

  lemma MovesLater(log: seq<Moment>, longer: seq<Moment>, lo: nat, low: nat, i: nat)
    requires low <= lo && 0 < i < |log| && log <= longer && Moves(log, lo, i)
    ensures Moves(longer, low, i)
  {
    assert longer[i] == log[i] && longer[i - 1] == log[i - 1];
    assert i >= 2 ==> longer[i - 2] == log[i - 2];
  }

  lemma MovesOn(u: World, v: World, w: World)
    requires MovesIn(u, v) && MovesIn(v, w)
    ensures MovesIn(u, w)
  {
    forall i | |u.log| <= i < |w.log|
      ensures Moves(w.log, |u.log|, i)
    {
      if i < |v.log| {
        MovesLater(v.log, w.log, |u.log|, |u.log|, i);
      } else {
        MovesLater(w.log, w.log, |v.log|, |u.log|, i);
      }
    }
  }

  // --------------------------------------------------------- stretches that turn nothing

  predicate CalmMoment(w: World, m: Moment) {
    && TaskAt(m.disk) == TaskAt(w.disk) && RunAt(m.disk) == RunAt(w.disk)
    && !m.call.PermitGranted? && !m.call.FinalReported?
  }

  ghost predicate Calm(w: World, v: World) {
    && w.log <= v.log && TaskAt(v.disk) == TaskAt(w.disk) && RunAt(v.disk) == RunAt(w.disk) && Ends(v)
    && forall i :: |w.log| <= i < |v.log| ==> CalmMoment(w, v.log[i])
  }

  lemma CalmMoves(w: World, v: World)
    requires Ends(w) && Calm(w, v)
    ensures MovesIn(w, v)
  {
    forall i | |w.log| <= i < |v.log|
      ensures Moves(v.log, |w.log|, i)
    {
      assert CalmMoment(w, v.log[i]);
      if i == |w.log| {
        assert v.log[i - 1] == w.log[|w.log| - 1];
      } else {
        assert CalmMoment(w, v.log[i - 1]);
      }
    }
  }

  lemma PutCalm(w: World, d: Disk)
    requires TaskAt(d) == TaskAt(w.disk) && RunAt(d) == RunAt(w.disk)
    ensures Calm(w, Put(w, d))
  {
  }

  lemma EmitCalm(w: World, payload: ByteString)
    requires Ends(w)
    ensures Calm(w, Emit(w, payload))
  {
    EmitLeaves(w, w, payload);
    forall i | |w.log| <= i < |Emit(w, payload).log|
      ensures CalmMoment(w, Emit(w, payload).log[i])
    {
      assert LeftAlone(w, Emit(w, payload).log[i]);
    }
  }

  lemma ControlCalm(w: World, c: Control)
    requires Ends(w)
    ensures Calm(w, ApplyControl(w, c))
  {
  }

  // ------------------------------------------------------------------ before the execution

  /** No execution is in hand and no retry pending. */
  predicate Early(d: Disk) {
    !InHand(TaskAt(d)) && TaskAt(d) != Some(RetryPending)
  }

  predicate EarlyMoment(w: World, m: Moment) {
    m.call == Wrote && Early(m.disk) && RunAt(m.disk) == RunAt(w.disk)
  }

  ghost predicate StaysEarly(w: World, v: World) {
    && w.log <= v.log && Early(v.disk) && RunAt(v.disk) == RunAt(w.disk)
    && forall i :: |w.log| <= i < |v.log| ==> EarlyMoment(w, v.log[i])
  }

  lemma EarlyMoves(w: World, v: World)
    requires Ends(w) && Early(w.disk) && StaysEarly(w, v)
    ensures MovesIn(w, v)
  {
    forall i | |w.log| <= i < |v.log|
      ensures Moves(v.log, |w.log|, i)
    {
      assert EarlyMoment(w, v.log[i]);
      if i == |w.log| {
        assert v.log[i - 1] == w.log[|w.log| - 1];
      } else {
        assert EarlyMoment(w, v.log[i - 1]);
      }
    }
  }

  lemma EarlyOn(u: World, v: World, w: World)
    requires StaysEarly(u, v) && StaysEarly(v, w)
    ensures StaysEarly(u, w)
  {
    forall i | |u.log| <= i < |w.log|
      ensures EarlyMoment(u, w.log[i])
    {
      if i < |v.log| {
        assert w.log[i] == v.log[i];
      }
    }
  }

  lemma PutEarly(w: World, d: Disk)
    requires Early(d) && RunAt(d) == RunAt(w.disk)
    ensures StaysEarly(w, Put(w, d))
  {
  }

  lemma CheckTaskEarly(w: World, e: StepEnv)
    requires Early(w.disk)
    ensures StaysEarly(w, CheckTask(w, e))
  {
    if e.check.Some? && e.check.value.TaskFound? {
      var task := e.check.value.task;
      var w1 := Freeze(w, task);
      PutEarly(w, w1.disk);
      PutEarly(w1, Accept(w, task).disk);
      EarlyOn(w, w1, Accept(w, task));
    }
  }

  lemma ConsentEarly(w: World, e: StepEnv)
    requires Early(w.disk)
    ensures StaysEarly(w, Consent(w, e))
  {
    if e.consent.Some? {
      var w1 := SaveConsent(w, e.consent.value);
      PutEarly(w, w1.disk);
      PutEarly(w1, Consent(w, e).disk);
      EarlyOn(w, w1, Consent(w, e));
    }
  }

  lemma {:induction false} DownloadEarly(w: World, e: StepEnv, i: nat, allReady: bool)
    requires Early(w.disk) && i <= |w.mem.task.packages|
    ensures StaysEarly(w, DownloadFrom(w, e, i, allReady))
    decreases |w.mem.task.packages| - i
  {
    if i == |w.mem.task.packages| {
      PutEarly(w, MoveTo(w, if allReady then Ready else Downloading).disk);
    } else {
      var p := w.mem.task.packages[i];
      var entry := DownloadEntry(w.disk, p);
      if entry.ready {
        DownloadEarly(w, e, i + 1, allReady);
      } else {
        var f := Fetch(entry, p, e.package(i));
        PutEarly(w, SaveDownload(w, f.entry).disk);
        if !f.failed {
          var w1 := SaveDownload(w, f.entry);
          DownloadEarly(w1, e, i + 1, allReady && !f.heldBack);
          EarlyOn(w, w1, DownloadFrom(w1, e, i + 1, allReady && !f.heldBack));
        }
      }
    }
  }

  lemma PreparingEarly(v: World, e: StepEnv)
    requires Early(v.disk) && v.mem.vt != Executing && !AwaitsPermit(v.mem.vt)
    ensures StaysEarly(v, Dispatch(v, e))
  {
    match v.mem.vt
    case NoTask => CheckTaskEarly(v, e);
    case Discovered => CheckTaskEarly(v, e);
    case ConsentPending => ConsentEarly(v, e);
    case DownloadPending => DownloadEarly(v, e, 0, true);
    case Downloading => DownloadEarly(v, e, 0, true);
    case _ =>
  }

  // ------------------------------------------------------------------------ being allowed

  lemma GrantMoves(w: World, e: StepEnv)
    requires Inv(w) && Grants(w, e)
    ensures MovesIn(w, Step(w, e))
  {
    TaskIsReal(w);
    GrantLength(w, e);
    var n, v, p := |w.log|, Step(w, e), e.permit.value.value;
    assert w.log <= v.log by {
      GrantSteps(w, e);
      TakeMoments(Say(Settle(w), GrantOf(p)), p);
    }
    GrantMoments(w, e, n);
    GrantMoments(w, e, n + 1);
    GrantMoments(w, e, n + 2);
    GrantMoments(w, e, n + 3);
    assert v.log[n - 1] == w.log[n - 1] && !InHand(TaskAt(w.disk));
    GrantTurns(w, v, p);
  }

  lemma GrantTurns(w: World, v: World, p: Permit)
    requires Ends(w) && w.log <= v.log && |v.log| == |w.log| + 4 && v.log[|w.log| - 1].disk == w.disk
    requires !InHand(TaskAt(w.disk))
    requires IsGrantMoment(w, p, 1, v.log[|w.log|]) && IsGrantMoment(w, p, 2, v.log[|w.log| + 1])
    requires IsGrantMoment(w, p, 3, v.log[|w.log| + 2]) && IsGrantMoment(w, p, 4, v.log[|w.log| + 3])
    ensures MovesIn(w, v)
  {
    var n := |w.log|;
    assert Moves(v.log, n, n);
    assert Moves(v.log, n, n + 1);
    assert Moves(v.log, n, n + 2);
    assert Moves(v.log, n, n + 3);
  }

  // ---------------------------------------------------------------------------- execution

  /** What executing finds: the task in hand, the execution as it is in memory, or not stored
      yet, or about to be rolled back. */
  predicate Underway(v: World) {
    && Ends(v) && InHand(TaskAt(v.disk))
    && (TaskAt(v.disk) == Some(RollbackPending) ==> v.mem.ex == Rollback)
    && (RunAt(v.disk) != Some(v.mem.ex) ==>
          if TaskAt(v.disk) == Some(RollbackPending) then v.mem.ex == Rollback
          else v.mem.ex == PermitPersisted && RunAt(v.disk).None?)
  }

  lemma SettledIsUnderway(w: World)
    requires Inv(w) && Agrees(w) && Settle(w).mem.vt == Executing
    ensures Underway(Settle(w))
  {
  }

  lemma StartCalm(v: World, e: StepEnv)
    requires Ends(v)
    ensures Calm(v, Start(v, e)) && Start(v, e).mem.ex == v.mem.ex
  {
    var v0 := Say(v, StartOf(v, e));
    EmittedMoments(v0, e.emitted);
    EmitAllKeepsPhase(v0, e.emitted);
    EmittedEnds(v0, e.emitted);
    forall i | |v.log| <= i < |Start(v, e).log|
      ensures CalmMoment(v, Start(v, e).log[i])
    {
      StartMoments(v, e, i);
    }
  }

  lemma {:induction false} EmittedEnds(w: World, payloads: seq<ByteString>)
    requires Ends(w)
    ensures Ends(EmitAll(w, payloads))
    decreases |payloads|
  {
    if payloads != [] {
      EmittedEnds(w, payloads[..|payloads| - 1]);
      EmitCalm(EmitAll(w, payloads[..|payloads| - 1]), payloads[|payloads| - 1]);
    }
  }

  lemma RecordMoves(v: World)
    requires Underway(v) && NotYetStarted(v.mem.ex)
    ensures MovesIn(v, RecordStart(v)) && Underway(RecordStart(v)) && RecordStart(v).mem.ex == InstallStarted
  {
    var m := v.mem.(ex := InstallStarted);
    var v1 := Put(v.(mem := m), v.disk.(execution := Some(ExecutionOf(m))));
    var v2 := RecordStart(v);
    assert v2 == Put(v1, v1.disk.(meta := Some(MetaRec(m.next, m.accepted))));
    var n := |v.log|;
    assert v2.log[n - 1] == v.log[n - 1] && v2.log[n] == Moment(Wrote, v1.disk, v.tally);
    assert v2.log[n + 1] == Moment(Wrote, v2.disk, v.tally);
    assert Moves(v2.log, n, n);
    assert Moves(v2.log, n, n + 1);
  }

  lemma SendUpToCalm(v: World, e: StepEnv, upTo: nat)
    requires Ends(v)
    ensures Calm(v, SendUpTo(v, e, upTo).0)
  {
    SendUpToLeaves(v, e, upTo);
    SendUpToEnds(v, e, upTo);
    forall i | |v.log| <= i < |SendUpTo(v, e, upTo).0.log|
      ensures CalmMoment(v, SendUpTo(v, e, upTo).0.log[i])
    {
      assert LeftAlone(v, SendUpTo(v, e, upTo).0.log[i]);
    }
  }

  lemma {:induction false} SendUpToEnds(v: World, e: StepEnv, upTo: nat)
    requires Ends(v)
    ensures Ends(SendUpTo(v, e, upTo).0)
    decreases upTo
  {
    if upTo > 1 {
      SendUpToEnds(v, e, upTo - 1);
    }
  }

  /** Ready to report: execution and counters are stored as they are in memory. */
  predicate Reportable(v: World) {
    && Ends(v) && v.disk.meta == Some(MetaRec(v.mem.next, v.mem.accepted))
    && InHand(TaskAt(v.disk)) && v.disk.execution == Some(ExecutionOf(v.mem)) && !NotYetStarted(v.mem.ex)
    && (TaskAt(v.disk) == Some(RollbackPending) ==> v.mem.ex == Rollback)
  }

  lemma StoreMoves(v: World)
    requires Underway(v) && !NotYetStarted(v.mem.ex)
    ensures MovesIn(v, PersistExecution(v)) && Reportable(PersistExecution(v))
  {
    var v1 := Put(v, v.disk.(execution := Some(ExecutionOf(v.mem))));
    var v2 := PersistExecution(v);
    var n := |v.log|;
    assert v2.log[n - 1] == v.log[n - 1] && v2.log[n] == Moment(Wrote, v1.disk, v.tally);
    assert v2.log[n + 1] == Moment(Wrote, v2.disk, v.tally);
    assert Moves(v2.log, n, n);
    assert Moves(v2.log, n, n + 1);
  }

  lemma SentAllMoves(v: World, e: StepEnv)
    requires Underway(v) && !NotYetStarted(v.mem.ex)
    ensures MovesIn(v, SentAll(v, e)) && Reportable(SentAll(v, e)) && SentAll(v, e).mem.ex == v.mem.ex
  {
    var meta := MetaOf(v.disk.meta);
    var v1 := SendUpTo(v, e, meta.next).0;
    var v2 := SaveWatermark(meta, v1);
    SendUpToCalm(v, e, meta.next);
    SendUpToLeaves(v, e, meta.next);
    CalmMoves(v, v1);
    PutCalm(v1, v1.disk.(meta := Some(meta.(accepted := v1.mem.accepted))));
    CalmMoves(v1, v2);
    MovesOn(v, v1, v2);
    StoreMoves(v2);
    MovesOn(v, v2, SentAll(v, e));
  }

  /** The four moments of a final result that is accepted. */
  predicate ClosedBy(w: World, v: World, reply: FinalReply) {
    var n := |w.log|;
    && |v.log| == n + 4 && w.log <= v.log && w.disk.task.Some? && w.disk.execution.Some?
    && v.log[n].call == FinalReported(w.mem.accepted, w.mem.ex == Rollback) && v.log[n].disk == w.disk
    && v.log[n + 1].call == v.log[n + 2].call == v.log[n + 3].call == Wrote
    && StoresReply(v.log[n].disk, v.log[n + 1].disk, reply)
    && StoresResult(v.log[n + 1].disk, v.log[n + 2].disk)
    && v.log[n + 3].disk == v.log[n + 2].disk == v.disk
  }

  /** The state the cloud assigns is stored, or COMPLETED if it assigns none. */
  predicate StoresReply(d: Disk, x: Disk, reply: FinalReply) {
    && d.task.Some? && x.task.Some? && x == d.(task := x.task)
    && x.task.value.snapshot == d.task.value.snapshot
    && (reply.state != NoTask ==> x.task.value.state == reply.state)
    && (reply.state == NoTask ==> x.task.value.state == Completed)
  }

  /** The execution is stored with the state it has come to, and is otherwise as it was. */
  predicate StoresResult(d: Disk, x: Disk) {
    && d.execution.Some? && x.execution.Some? && x == d.(execution := x.execution)
    && x.execution.value == d.execution.value.(state := x.execution.value.state)
    && Closes(x.execution.value.state, TaskAt(d), RunAt(d))
  }

  predicate SnapshotStored(w: World) {
    w.disk.task.Some? && w.disk.task.value.snapshot == Snapshot(w.mem.task)
  }

  lemma FinalizeClosed(w: World, e: StepEnv)
    requires Reportable(w) && SnapshotStored(w)
    ensures e.final.Some? && e.final.value.accepted ==> ClosedBy(w, Finalize(w, e), e.final.value)
    ensures !(e.final.Some? && e.final.value.accepted) ==>
              Finalize(w, e).log == w.log + [Moment(ReportOf(w.mem), w.disk, Counted(w.tally, ReportOf(w.mem)))]
  {
    if e.final.Some? && e.final.value.accepted {
      var w0 := Say(w, ReportOf(w.mem));
      var v := Finalize(w, e);
      var m := v.mem;
      var w1 := Put(w0, w0.disk.(task := Some(VehicleTaskRec(Snapshot(w.mem.task), m.vt))));
      var w2 := Put(w1, w1.disk.(execution := Some(ExecutionOf(m))));
      assert v.log == Put(w2, w2.disk.(meta := Some(MetaRec(m.next, m.accepted)))).log;
      assert w1.log == w0.log + [Moment(Wrote, w1.disk, w0.tally)];
      assert w2.log == w1.log + [Moment(Wrote, w2.disk, w0.tally)];
    }
  }

  lemma ClosingMoves(w: World, v: World, reply: FinalReply)
    requires Reportable(w) && ClosedBy(w, v, reply)
    ensures MovesIn(w, v)
  {
    var n := |w.log|;
    assert v.log[n - 1] == w.log[n - 1];
    assert Moves(v.log, n, n);
    assert Moves(v.log, n, n + 1);
    assert Moves(v.log, n, n + 2);
    assert Moves(v.log, n, n + 3);
  }

  lemma FinalizeMoves(w: World, e: StepEnv)
    requires Reportable(w) && SnapshotStored(w)
    ensures MovesIn(w, Finalize(w, e))
  {
    FinalizeClosed(w, e);
    if e.final.Some? && e.final.value.accepted {
      ClosingMoves(w, Finalize(w, e), e.final.value);
    } else {
      assert Moves(Finalize(w, e).log, |w.log|, |w.log|);
    }
  }

  lemma SendEventsMoves(v: World, e: StepEnv)
    requires Underway(v) && !NotYetStarted(v.mem.ex) && SnapshotStored(SentAll(v, e))
    ensures MovesIn(v, SendEvents(v, e))
  {
    SendEventsInParts(v, e);
    SentAllMoves(v, e);
    if !SendUpTo(v, e, MetaOf(v.disk.meta).next).1 {
      FinalizeMoves(SentAll(v, e), e);
      MovesOn(v, SentAll(v, e), Finalize(SentAll(v, e), e));
    }
  }

  // --------------------------------------------------------------------- whole operations

  /** The world in which a step reports, if it does. */
  function ReportingWorld(w: World, e: StepEnv): World {
    SentAll(SendingWorld(Settle(w), e), e)
  }

  lemma TaskIsStored(w: World)
    requires Inv(w) && w.mem.vt == Executing
    ensures SnapshotStored(w)
  {
    TaskIsReal(w);
  }

  lemma ReportingIsStoredToo(w: World, e: StepEnv)
    requires Inv(w) && Agrees(w) && Settle(w).mem.vt == Executing
    ensures SnapshotStored(ReportingWorld(w, e))
  {
    SettledSteady(w, false);
    var v := Settle(w);
    if NotYetStarted(v.mem.ex) {
      StartedIsSending(v, e, false);
    }
    SentAllSteady(SendingWorld(v, e), e, false);
    TaskIsStored(ReportingWorld(w, e));
  }

  lemma StartMoves(v: World, e: StepEnv)
    requires Underway(v) && NotYetStarted(v.mem.ex)
    ensures MovesIn(v, Start(v, e))
    ensures var u := RecordStart(Start(v, e)); MovesIn(v, u) && Underway(u) && u.mem.ex == InstallStarted
  {
    StartCalm(v, e);
    CalmMoves(v, Start(v, e));
    RecordMoves(Start(v, e));
    MovesOn(v, Start(v, e), RecordStart(Start(v, e)));
  }

  lemma ExecutingMoves(w: World, e: StepEnv)
    requires Inv(w) && Agrees(w) && Settle(w).mem.vt == Executing
    ensures MovesIn(w, Step(w, e))
  {
    var v := Settle(w);
    SettledIsUnderway(w);
    ReportingIsStoredToo(w, e);
    DispatchExecutes(v, e);
    if !NotYetStarted(v.mem.ex) {
      SendEventsMoves(v, e);
    } else if e.prepared {
      StartMoves(v, e);
      if e.started {
        SendEventsMoves(SendingWorld(v, e), e);
        MovesOn(v, SendingWorld(v, e), Step(w, e));
      }
    }
  }

  lemma WaitingMoves(w: World)
    requires Inv(w) && w.mem.vt == Ready
    ensures MovesIn(w, MoveTo(w, WaitingWindow))
  {
    PutEarly(w, MoveTo(w, WaitingWindow).disk);
    EarlyMoves(w, MoveTo(w, WaitingWindow));
  }

  lemma UngrantedRequest(w: World, e: StepEnv)
    requires AwaitsPermit(w.mem.vt) && !Grants(w, e)
    ensures Step(w, e) == if w.mem.vt == Ready then MoveTo(w, WaitingWindow) else Settle(w)
  {
    DispatchRequests(Settle(w), e);
  }

  lemma RequestingMoves(w: World, e: StepEnv)
    requires Inv(w) && AwaitsPermit(w.mem.vt)
    ensures MovesIn(w, Step(w, e))
  {
    if Grants(w, e) {
      GrantMoves(w, e);
    } else {
      UngrantedRequest(w, e);
      if w.mem.vt == Ready {
        WaitingMoves(w);
      }
    }
  }

  lemma PreparingMoves(w: World, e: StepEnv)
    requires Inv(w) && Settle(w).mem.vt != Executing && !AwaitsPermit(w.mem.vt)
    ensures MovesIn(w, Step(w, e))
  {
    PreparingEarly(Settle(w), e);
    EarlyMoves(w, Step(w, e));
  }

  lemma OperationMoves(w: World, op: Op)
    requires Inv(w) && Agrees(w)
    ensures MovesIn(w, Perform(w, op))
  {
    match op
    case StepOp(e) =>
      if Settle(w).mem.vt == Executing {
        ExecutingMoves(w, e);
      } else if AwaitsPermit(w.mem.vt) {
        RequestingMoves(w, e);
      } else {
        PreparingMoves(w, e);
      }
    case EmitOp(payload) =>
      EmitCalm(w, payload);
      CalmMoves(w, Emit(w, payload));
    case ControlOp(control) =>
      ControlCalm(w, control);
      CalmMoves(w, ApplyControl(w, control));
  }

  // ----------------------------------------------------------------------- whole histories

  ghost predicate Lawful(log: seq<Moment>) {
    forall i :: 0 < i < |log| ==> Moves(log, 0, i)
  }

  lemma PrefixIsLawful(log: seq<Moment>, n: nat)
    requires Lawful(log) && n <= |log|
    ensures Lawful(log[..n])
  {
    forall i | 0 < i < n
      ensures Moves(log[..n], 0, i)
    {
      assert Moves(log, 0, i);
      assert log[..n][i - 1] == log[i - 1] && (i >= 2 ==> log[..n][i - 2] == log[i - 2]);
    }
  }

  lemma LawfulOn(w: World, v: World)
    requires Lawful(w.log) && MovesIn(w, v)
    ensures Lawful(v.log)
  {
    forall i | 0 < i < |v.log|
      ensures Moves(v.log, 0, i)
    {
      if i < |w.log| {
        MovesLater(w.log, v.log, 0, 0, i);
      } else {
        MovesLater(v.log, v.log, |w.log|, 0, i);
      }
    }
  }

  lemma ActIsLawful(w: World, a: Action)
    requires Inv(w) && Agrees(w) && Lawful(w.log)
    ensures Lawful(Act(w, a).log)
  {
    if !a.RestartNow? {
      OperationMoves(w, a.op);
      LawfulOn(w, Perform(w, a.op));
      if a.DieIn? && 0 < Kept(w, Perform(w, a.op), a.moments) {
        PrefixIsLawful(Perform(w, a.op).log, Kept(w, Perform(w, a.op), a.moments));
      }
    }
  }

  lemma {:induction false} HistoryIsLawful(w: World, actions: seq<Action>)
    requires Inv(w) && Agrees(w) && ActionsOK(actions) && Lawful(w.log)
    ensures Lawful(History(w, actions).log)
    decreases |actions|
  {
    if actions != [] {
      ActAgrees(w, actions[0]);
      ActIsLawful(w, actions[0]);
      HistoryIsLawful(Act(w, actions[0]), actions[1..]);
    }
  }

  lemma LogIsLawful(max: nat, actions: seq<Action>)
    requires ActionsOK(actions)
    ensures Lawful(History(First(max), actions).log) && |History(First(max), actions).log| > 0
  {
    FirstIsSound(max);
    FirstIsSteady(max);
    HistoryIsLawful(First(max), actions);
    HistoryIsSound(First(max), actions);
  }
}
