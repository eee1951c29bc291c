/** The event counters of a process up to its first stored execution, which writes them back. */
module OrchestratorCounters {
  import opened Wrappers
  import opened OrchestratorState
  import opened OrchestratorSpec
  import opened OrchestratorInvariants
  import opened OrchestratorHistory
  import opened OrchestratorPermits
  import opened OrchestratorSessions

  /** The stored task has no snapshot, so a process that loads it forgets the counters. */
  predicate WithoutSnapshot(d: Disk) {
    d.task.Some? && d.task.value.snapshot.None?
  }

  /** A restart keeps the event number in memory in step with the disk, unless the stored task
      has no snapshot and the number is not the first one. */
  lemma RestartKeepsNumberIff(w: World)
    ensures Restart(w).mem.next == MetaOf(w.disk.meta).next <==> !WithoutSnapshot(w.disk) || MetaOf(w.disk.meta).next == 1
    ensures Restart(w).mem.accepted == MetaOf(w.disk.meta).accepted
            <==> !WithoutSnapshot(w.disk) || MetaOf(w.disk.meta).accepted == 0
    ensures WithoutSnapshot(w.disk) ==> Restart(w).mem == FRESH
  {
  }

  predicate GetsThrough(w: World, op: Op) {
    op.EmitOp? && !OutboxFull(w)
  }

  /** One of the operations is an emit that the outbox has room for. */
  predicate EmitsThrough(w: World, ops: seq<Op>)
    decreases |ops|
  {
    ops != [] && (GetsThrough(w, ops[0]) || EmitsThrough(Perform(w, ops[0]), ops[1..]))
  }

  /** None of the operations takes a permit. */
  predicate TakesNoPermit(w: World, ops: seq<Op>)
    decreases |ops|
  {
    ops == [] ||
    ((ops[0].StepOp? ==> !Grants(w, ops[0].env)) && TakesNoPermit(Perform(w, ops[0]), ops[1..]))
  }

  /** What an operation before the permit does to the counters. */
  predicate CountersStay(w: World, v: World) {
    && v.mem.next == w.mem.next && v.mem.accepted == w.mem.accepted && v.disk.meta == w.disk.meta
    && !AfterPermit(v.mem.vt)
  }

  lemma {:induction false} DownloadKeepsCounters(w: World, e: StepEnv, i: nat, allReady: bool)
    requires i <= |w.mem.task.packages| && !AfterPermit(w.mem.vt)
    ensures CountersStay(w, DownloadFrom(w, e, i, allReady))
    decreases |w.mem.task.packages| - i
  {
    if i < |w.mem.task.packages| {
      var p := w.mem.task.packages[i];
      var entry := DownloadEntry(w.disk, p);
      if entry.ready {
        DownloadKeepsCounters(w, e, i + 1, allReady);
      } else {
        var f := Fetch(entry, p, e.package(i));
        if !f.failed {
          DownloadKeepsCounters(SaveDownload(w, f.entry), e, i + 1, allReady && !f.heldBack);
        }
      }
    }
  }

  lemma DispatchKeepsCounters(w: World, e: StepEnv)
    requires !AfterPermit(w.mem.vt) && !Grants(w, e)
    ensures CountersStay(w, Dispatch(w, e))
  {
    if w.mem.vt == DownloadPending || w.mem.vt == Downloading {
      DownloadKeepsCounters(w, e, 0, true);
    }
  }

  /** Before the permit only an emit moves the counters, and then it brings the number in memory
      in step with the disk. */
  lemma EarlyCounters(w: World, op: Op)
    requires !AfterPermit(w.mem.vt) && (op.StepOp? ==> !Grants(w, op.env))
    ensures var v := Perform(w, op);
            if GetsThrough(w, op)
            then && v.mem.accepted == w.mem.accepted && v.mem.next == MetaOf(v.disk.meta).next && !AfterPermit(v.mem.vt)
                 && MetaOf(v.disk.meta).accepted == MetaOf(w.disk.meta).accepted
            else CountersStay(w, v)
  {
    if op.StepOp? {
      DispatchKeepsCounters(Settle(w), op.env);
      assert Step(w, op.env) == Dispatch(Settle(w), op.env);
    }
  }

  /** Once memory and disk agree on the number, a run without a permit keeps them in step. */
  lemma {:induction false} InStep(w: World, ops: seq<Op>)
    requires !AfterPermit(w.mem.vt) && TakesNoPermit(w, ops) && w.mem.next == MetaOf(w.disk.meta).next
    ensures PerformAll(w, ops).mem.next == MetaOf(PerformAll(w, ops).disk.meta).next
    decreases |ops|
  {
    if ops != [] {
      EarlyCounters(w, ops[0]);
      InStep(Perform(w, ops[0]), ops[1..]);
    }
  }

  /** The counters after a run without a permit. */
  lemma {:induction false} RunCounters(w: World, ops: seq<Op>)
    requires !AfterPermit(w.mem.vt) && TakesNoPermit(w, ops)
    ensures var u := PerformAll(w, ops);
            && !AfterPermit(u.mem.vt) && u.mem.accepted == w.mem.accepted
            && MetaOf(u.disk.meta).accepted == MetaOf(w.disk.meta).accepted
            && (EmitsThrough(w, ops) ==> u.mem.next == MetaOf(u.disk.meta).next)
            && (!EmitsThrough(w, ops) ==> u.mem.next == w.mem.next && u.disk.meta == w.disk.meta)
    decreases |ops|
  {
    if ops != [] {
      EarlyCounters(w, ops[0]);
      RunCounters(Perform(w, ops[0]), ops[1..]);
      if GetsThrough(w, ops[0]) {
        InStep(Perform(w, ops[0]), ops[1..]);
      }
    }
  }

  lemma GrantStoresCounters(w: World, e: StepEnv)
    requires Grants(w, e)
    ensures Step(w, e).disk.meta == Some(MetaRec(w.mem.next, w.mem.accepted))
  {
    GrantSteps(w, e);
  }

  /** A process that runs up to its first execution writes its counters back with it. The event
      number on disk survives that if and only if the stored task had a snapshot, or the number
      was the first one, or an emit got through before; the accepted one if and only if the
      stored task had a snapshot or nothing was accepted. */
  lemma FirstExecutionKeepsNumberIff(w: World, ops: seq<Op>, e: StepEnv)
    requires !AfterPermit(Restart(w).mem.vt) && TakesNoPermit(Restart(w), ops)
    requires Grants(PerformAll(Restart(w), ops), e)
    ensures var u := PerformAll(Restart(w), ops);
            var meta := MetaOf(Step(u, e).disk.meta);
            && (meta.next == MetaOf(u.disk.meta).next
                <==> !WithoutSnapshot(w.disk) || MetaOf(w.disk.meta).next == 1 || EmitsThrough(Restart(w), ops))
            && (meta.accepted == MetaOf(u.disk.meta).accepted
                <==> !WithoutSnapshot(w.disk) || MetaOf(w.disk.meta).accepted == 0)
            && (WithoutSnapshot(w.disk) ==>
                  meta == MetaRec(if EmitsThrough(Restart(w), ops) then MetaOf(u.disk.meta).next else 1, 0))
  {
    RestartKeepsNumberIff(w);
    RunCounters(Restart(w), ops);
    GrantStoresCounters(PerformAll(Restart(w), ops), e);
  }
}
