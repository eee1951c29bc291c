/** The stretches of an operation that only write: no call to the outside, no control record,
    and no disk from which the installer would be started that was not there before. */
module OrchestratorSegments {
  import opened Wrappers
  import opened Bytes
  import opened OrchestratorState
  import opened OrchestratorSpec

  /** A process that loads this disk goes on to start the installer. */
  predicate StartsNext(d: Disk) {
    && d.task.Some? && d.task.value.snapshot.Some? && d.task.value.state == Executing
    && (d.execution.None? || NotYetStarted(d.execution.value.state))
  }

  predicate NoNearer(d: Disk, x: Disk) {
    && x.controls == d.controls
    && (StartsNext(x) ==> StartsNext(d) && x.execution == d.execution)
  }

  predicate IsWrite(w: World, m: Moment) {
    m.call == Wrote && m.tally == w.tally && NoNearer(w.disk, m.disk)
  }

  predicate SameBookkeeping(m: Mem, n: Mem) {
    && n.ackSeq == m.ackSeq && n.pending == m.pending
    && n.lastApplied == m.lastApplied && n.lastReceived == m.lastReceived
  }

  /** From `w` to `v` there have only been such writes. */
  ghost predicate Writes(w: World, v: World) {
    && w.log <= v.log
    && (forall i :: |w.log| <= i < |v.log| ==> IsWrite(w, v.log[i]))
    && v.tally == w.tally && v.max == w.max && NoNearer(w.disk, v.disk)
    && SameBookkeeping(w.mem, v.mem)
  }

  lemma WritesOn(u: World, v: World, w: World)
    requires Writes(u, v) && Writes(v, w)
    ensures Writes(u, w)
  {
    forall i | |u.log| <= i < |w.log|
      ensures IsWrite(u, w.log[i])
    {
      if i < |v.log| {
        assert w.log[i] == v.log[i];
      }
    }
  }

  lemma PutWrites(w: World, d: Disk)
    requires NoNearer(w.disk, d)
    ensures Writes(w, Put(w, d))
  {
  }

  lemma MoveToWrites(w: World, vt: VtState)
    requires vt == Executing ==> w.disk.execution.Some? && !NotYetStarted(w.disk.execution.value.state)
    ensures Writes(w, MoveTo(w, vt))
  {
    PutWrites(w, MoveTo(w, vt).disk);
  }

  lemma PersistExecutionWrites(w: World)
    requires !NotYetStarted(w.mem.ex)
    ensures Writes(w, PersistExecution(w))
  {
    var w1 := Put(w, w.disk.(execution := Some(ExecutionOf(w.mem))));
    PutWrites(w, w1.disk);
    PutWrites(w1, PersistExecution(w).disk);
    WritesOn(w, w1, PersistExecution(w));
  }

  lemma EmitWrites(w: World, payload: ByteString)
    ensures Writes(w, Emit(w, payload))
  {
    if !OutboxFull(w) {
      var w1 := SaveNewEvent(w, payload);
      PutWrites(w, w1.disk);
      PutWrites(w1, SaveNext(w1).disk);
      WritesOn(w, w1, Emit(w, payload));
    }
  }

  lemma {:induction false} EmitAllWrites(w: World, payloads: seq<ByteString>)
    ensures Writes(w, EmitAll(w, payloads))
    decreases |payloads|
  {
    if payloads != [] {
      var n := |payloads| - 1;
      EmitAllWrites(w, payloads[..n]);
      EmitWrites(EmitAll(w, payloads[..n]), payloads[n]);
      WritesOn(w, EmitAll(w, payloads[..n]), EmitAll(w, payloads));
    }
  }

  lemma CheckTaskWrites(w: World, e: StepEnv)
    ensures Writes(w, CheckTask(w, e))
  {
    match e.check
    case None =>
    case Some(NotAccepted) => PutWrites(w, w.disk.(fullRequired := true));
    case Some(TaskMissing) =>
    case Some(TaskFound(task)) =>
      PutWrites(w, Freeze(w, task).disk);
      MoveToWrites(Freeze(w, task), if task.consentRequired then ConsentPending else DownloadPending);
      WritesOn(w, Freeze(w, task), Accept(w, task));
  }

  lemma ConsentWrites(w: World, e: StepEnv)
    ensures Writes(w, Consent(w, e))
  {
    match e.consent
    case None =>
    case Some(reply) =>
      PutWrites(w, SaveConsent(w, reply).disk);
      MoveToWrites(SaveConsent(w, reply), if reply.accepted then DownloadPending else Ended);
      WritesOn(w, SaveConsent(w, reply), Consent(w, e));
  }

  lemma {:induction false} DownloadWrites(w: World, e: StepEnv, i: nat, allReady: bool)
    requires i <= |w.mem.task.packages|
    ensures Writes(w, DownloadFrom(w, e, i, allReady))
    decreases |w.mem.task.packages| - i
  {
    if i == |w.mem.task.packages| {
      MoveToWrites(w, if allReady then Ready else Downloading);
    } else {
      var p := w.mem.task.packages[i];
      var entry := DownloadEntry(w.disk, p);
      if entry.ready {
        DownloadWrites(w, e, i + 1, allReady);
      } else {
        var f := Fetch(entry, p, e.package(i));
        PutWrites(w, SaveDownload(w, f.entry).disk);
        if !f.failed {
          var w1 := SaveDownload(w, f.entry);
          DownloadWrites(w1, e, i + 1, allReady && !f.heldBack);
          WritesOn(w, w1, DownloadFrom(w1, e, i + 1, allReady && !f.heldBack));
        }
      }
    }
  }

  lemma SendOneWrites(w: World, e: StepEnv, s: nat)
    ensures Writes(w, SendOne(w, e, s).0)
  {
    if s in w.disk.events && w.disk.events[s].status != Acked {
      PutWrites(w, SendOne(w, e, s).0.disk);
    }
  }

  lemma {:induction false} SendUpToWrites(w: World, e: StepEnv, upTo: nat)
    ensures Writes(w, SendUpTo(w, e, upTo).0)
    ensures SendUpTo(w, e, upTo).0.mem.ex == w.mem.ex
    decreases upTo
  {
    if upTo > 1 {
      SendUpToWrites(w, e, upTo - 1);
      SendOneWrites(SendUpTo(w, e, upTo - 1).0, e, upTo - 1);
      WritesOn(w, SendUpTo(w, e, upTo - 1).0, SendUpTo(w, e, upTo).0);
    }
  }

  /** Sending without what comes after it: the events, the watermark, the execution. */
  function SentAll(w: World, e: StepEnv): World {
    PersistExecution(SaveWatermark(MetaOf(w.disk.meta), SendUpTo(w, e, MetaOf(w.disk.meta).next).0))
  }

  function SaveWatermark(meta: MetaRec, w: World): World {
    if meta.accepted < w.mem.accepted then Put(w, w.disk.(meta := Some(meta.(accepted := w.mem.accepted)))) else w
  }

  lemma SendEventsInParts(w: World, e: StepEnv)
    ensures SendEvents(w, e)
         == if SendUpTo(w, e, MetaOf(w.disk.meta).next).1 then SentAll(w, e) else Finalize(SentAll(w, e), e)
  {
  }

  lemma SentAllWrites(w: World, e: StepEnv)
    requires !NotYetStarted(w.mem.ex)
    ensures Writes(w, SentAll(w, e)) && |SentAll(w, e).log| >= |w.log| + 2
    ensures var v := SentAll(w, e); v.mem.ex == w.mem.ex && v.disk.execution == Some(ExecutionOf(v.mem))
  {
    var meta := MetaOf(w.disk.meta);
    var w1 := SendUpTo(w, e, meta.next).0;
    var w2 := SaveWatermark(meta, w1);
    SendUpToWrites(w, e, meta.next);
    PutWrites(w1, w1.disk.(meta := Some(meta.(accepted := w1.mem.accepted))));
    WritesOn(w, w1, w2);
    PersistExecutionWrites(w2);
    WritesOn(w, w2, SentAll(w, e));
  }

  lemma ConcludeWrites(w: World, reply: FinalReply)
    requires w.disk.execution.Some? && !NotYetStarted(w.disk.execution.value.state)
    ensures Writes(w, Conclude(w, reply))
  {
    var ex := if reply.state == RetryPending then Failed else if w.mem.ex == Rollback then RolledBack else Succeeded;
    var vt := if reply.state == NoTask then Completed else reply.state;
    var v := w.(mem := w.mem.(ex := ex));
    MoveToWrites(v, vt);
    PersistExecutionWrites(MoveTo(v, vt));
    WritesOn(w, MoveTo(v, vt), Conclude(w, reply));
  }

  /** After the report there are only writes. */
  lemma FinalizeWrites(w: World, e: StepEnv)
    requires w.disk.execution.Some? && !NotYetStarted(w.disk.execution.value.state)
    ensures var w1 := Say(w, ReportOf(w.mem)); Writes(w1, Finalize(w, e))
  {
    var w1 := Say(w, ReportOf(w.mem));
    if e.final.Some? && e.final.value.accepted {
      ConcludeWrites(w1, e.final.value);
    }
  }

  lemma FinalizeReports(w: World, e: StepEnv)
    requires Writes(Say(w, ReportOf(w.mem)), Finalize(w, e))
    ensures |Finalize(w, e).log| > |w.log| && w.log <= Finalize(w, e).log
    ensures Finalize(w, e).log[|w.log|] == Moment(ReportOf(w.mem), w.disk, w.tally)
  {
    var w1 := Say(w, ReportOf(w.mem));
    assert Finalize(w, e).log[|w.log|] == w1.log[|w.log|];
  }

  /** A step in these states makes no call. */
  lemma PreparingStepWrites(w: World, e: StepEnv)
    requires w.mem.vt != Ready && w.mem.vt != WaitingWindow && w.mem.vt != PermitPending && w.mem.vt != Executing
    ensures Writes(w, Dispatch(w, e))
  {
    match w.mem.vt
    case NoTask => CheckTaskWrites(w, e);
    case Discovered => CheckTaskWrites(w, e);
    case ConsentPending => ConsentWrites(w, e);
    case DownloadPending => DownloadWrites(w, e, 0, true);
    case Downloading => DownloadWrites(w, e, 0, true);
    case _ =>
  }
}
