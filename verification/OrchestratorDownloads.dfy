/** What becomes of the record of each package, and that a ready one is never touched again. */
module OrchestratorDownloads {
  import opened Wrappers
  import opened Bytes
  import opened Decimals
  import opened OrchestratorState
  import opened OrchestratorSpec
  import opened OrchestratorSegments
  import opened OrchestratorInvariants
  import opened OrchestratorHistory
  import opened OrchestratorBoundaries
  import opened OrchestratorPermits
  import opened OrchestratorTurns
  import opened OrchestratorResults

  // --------------------------------------------------------------------------- one package

  /** The package has come through: downloaded, and its stage result accepted if there is one. */
  predicate CameThrough(env: PackageEnv) {
    env.outcome.succeeded && (env.outcome.stage.Some? ==> env.stageAccepted == Some(true))
  }

  /** The entity tag given, or the one known. */
  function TagAfter(before: DownloadRec, grant: Grant): Id {
    if grant.etag.Some? then grant.etag.value else before.etag
  }

  /** A package revision replaces the one known together with a new entity tag. */
  predicate RevisionRenewed(before: DownloadRec, grant: Grant) {
    grant.etag.Some? && grant.etag.value != "" && grant.etag.value != before.etag && grant.packageRevision != ""
  }

  /** What is known of how far the download has come. */
  predicate ProgressAs(before: DownloadRec, env: PackageEnv, after: DownloadRec)
    requires env.grant.Some?
  {
    && after.packageId == before.packageId && after.offset == env.outcome.finalOffset
    && after.etag == TagAfter(before, env.grant.value)
    && after.packageRevision ==
         if RevisionRenewed(before, env.grant.value) then env.grant.value.packageRevision else before.packageRevision
  }

  predicate VerifiedAsBefore(before: DownloadRec, after: DownloadRec) {
    && after.verify == before.verify && after.ready == before.ready
    && after.stageResultId == before.stageResultId && after.stageResultDigest == before.stageResultDigest
  }

  /** What the record of a package that was not ready becomes. */
  predicate FetchedAs(before: DownloadRec, env: PackageEnv, after: DownloadRec) {
    if env.grant.None? then after == before
    else
      && ProgressAs(before, env, after)
      && if env.outcome.stage.Some? && env.stageAccepted.None? then VerifiedAsBefore(before, after)
         else if env.outcome.stage.None? && env.outcome.succeeded then VerifiedAsBefore(before, after)
         else
           && (after.ready <==> CameThrough(env))
           && (after.verify == if CameThrough(env) then VerifySucceeded else VerifyFailed)
           && (CameThrough(env) ==>
                 && after.stageResultDigest == env.outcome.stage.value.digest
                 && after.stageResultId ==
                      if env.outcome.stage.value.id != "" then env.outcome.stage.value.id
                      else "SR-" + before.packageId + "-" + Chars(Decimal(after.offset)))
           && (!CameThrough(env) ==>
                 after.stageResultId == before.stageResultId && after.stageResultDigest == before.stageResultDigest)
  }

  lemma FetchIsAs(before: DownloadRec, p: Package, env: PackageEnv)
    requires before.packageId == p.id
    ensures var f := Fetch(before, p, env);
            && (!before.ready ==> FetchedAs(before, env, f.entry)) && f.entry.packageId == before.packageId
            && (f.failed <==> env.grant.None? || (env.outcome.stage.Some? && env.stageAccepted.None?))
            && (f.heldBack <==> f.failed || !CameThrough(env))
  {
  }

  /** The record of a package, or a new one for its revision. */
  function RecordBefore(d: Disk, p: Package): DownloadRec {
    if p.id in d.downloads then d.downloads[p.id]
    else DownloadRec(p.id, p.revision, "", 0, VerifyPending, "", "", false)
  }

  // ------------------------------------------------------------------------------ one step

  /** The write stores what package `k` of the task has become, which was not ready. */
  predicate StoresPackage(p: Disk, m: Disk, t: Task, e: StepEnv, k: nat) {
    && k < |t.packages| && t.packages[k].id in m.downloads && !RecordBefore(p, t.packages[k]).ready
    && m == p.(downloads := p.downloads[t.packages[k].id := m.downloads[t.packages[k].id]])
    && FetchedAs(RecordBefore(p, t.packages[k]), e.package(k), m.downloads[t.packages[k].id])
  }

  ghost predicate Stores(p: Disk, m: Disk, t: Task, e: StepEnv) {
    m.downloads == p.downloads || exists k: nat :: StoresPackage(p, m, t, e, k)
  }

  ghost predicate StoresIn(w: World, v: World, t: Task, e: StepEnv) {
    && 0 < |w.log| && w.log <= v.log && Ends(v)
    && forall i :: |w.log| <= i < |v.log| ==> Stores(v.log[i - 1].disk, v.log[i].disk, t, e)
  }

  lemma StoresOn(u: World, v: World, w: World, t: Task, e: StepEnv)
    requires StoresIn(u, v, t, e) && StoresIn(v, w, t, e)
    ensures StoresIn(u, w, t, e)
  {
    forall i | |u.log| <= i < |w.log|
      ensures Stores(w.log[i - 1].disk, w.log[i].disk, t, e)
    {
      if i < |v.log| {
        assert w.log[i - 1] == v.log[i - 1] && w.log[i] == v.log[i];
      }
    }
  }

  lemma PutStores(w: World, d: Disk, t: Task, e: StepEnv)
    requires Ends(w) && Stores(w.disk, d, t, e)
    ensures StoresIn(w, Put(w, d), t, e)
  {
    assert Put(w, d).log[|w.log| - 1] == w.log[|w.log| - 1];
  }

  lemma {:induction false} DownloadStores(w: World, e: StepEnv, i: nat, allReady: bool)
    requires Ends(w) && DownloadsKeyed(w.disk.downloads) && i <= |w.mem.task.packages|
    ensures StoresIn(w, DownloadFrom(w, e, i, allReady), w.mem.task, e)
    decreases |w.mem.task.packages| - i
  {
    var t := w.mem.task;
    if i == |t.packages| {
      PutStores(w, MoveTo(w, if allReady then Ready else Downloading).disk, t, e);
    } else {
      var p := t.packages[i];
      var entry := DownloadEntry(w.disk, p);
      if entry.ready {
        DownloadStores(w, e, i + 1, allReady);
      } else {
        var f := Fetch(entry, p, e.package(i));
        FetchIsAs(entry, p, e.package(i));
        var w1 := SaveDownload(w, f.entry);
        assert StoresPackage(w.disk, w1.disk, t, e, i);
        PutStores(w, w1.disk, t, e);
        if !f.failed {
          DownloadStores(w1, e, i + 1, allReady && !f.heldBack);
          StoresOn(w, w1, DownloadFrom(w1, e, i + 1, allReady && !f.heldBack), t, e);
        }
      }
    }
  }

  // --------------------------------------------------------------- all the other operations

  ghost predicate KeepsDownloads(w: World, v: World) {
    && w.log <= v.log && Ends(v) && v.disk.downloads == w.disk.downloads
    && forall i :: |w.log| <= i < |v.log| ==> v.log[i].disk.downloads == w.disk.downloads
  }

  lemma KeptStores(w: World, v: World, t: Task, e: StepEnv)
    requires Ends(w) && KeepsDownloads(w, v)
    ensures StoresIn(w, v, t, e)
  {
    forall i | |w.log| <= i < |v.log|
      ensures Stores(v.log[i - 1].disk, v.log[i].disk, t, e)
    {
      if i == |w.log| {
        assert v.log[i - 1] == w.log[|w.log| - 1];
      }
    }
  }

  lemma KeepsOn(u: World, v: World, w: World)
    requires KeepsDownloads(u, v) && KeepsDownloads(v, w)
    ensures KeepsDownloads(u, w)
  {
    forall i | |u.log| <= i < |w.log|
      ensures w.log[i].disk.downloads == u.disk.downloads
    {
      if i < |v.log| {
        assert w.log[i] == v.log[i];
      }
    }
  }

  lemma EmitKeeps(w: World, payload: ByteString)
    requires Ends(w)
    ensures KeepsDownloads(w, Emit(w, payload))
  {
  }

  lemma {:induction false} EmitAllKeeps(w: World, payloads: seq<ByteString>)
    requires Ends(w)
    ensures KeepsDownloads(w, EmitAll(w, payloads))
    decreases |payloads|
  {
    if payloads != [] {
      var n := |payloads| - 1;
      EmitAllKeeps(w, payloads[..n]);
      EmitKeeps(EmitAll(w, payloads[..n]), payloads[n]);
      KeepsOn(w, EmitAll(w, payloads[..n]), EmitAll(w, payloads));
    }
  }

  lemma SayKeeps(w: World, call: Call)
    ensures KeepsDownloads(w, Say(w, call))
  {
  }

  lemma PutKeeps(w: World, d: Disk)
    requires d.downloads == w.disk.downloads
    ensures KeepsDownloads(w, Put(w, d))
  {
  }

  lemma PersistExecutionKept(w: World)
    ensures KeepsDownloads(w, PersistExecution(w))
  {
    var w1 := Put(w, w.disk.(execution := Some(ExecutionOf(w.mem))));
    PutKeeps(w, w1.disk);
    PutKeeps(w1, PersistExecution(w).disk);
    KeepsOn(w, w1, PersistExecution(w));
  }

  lemma {:induction false} SendUpToKept(w: World, e: StepEnv, upTo: nat)
    requires Ends(w)
    ensures KeepsDownloads(w, SendUpTo(w, e, upTo).0)
    decreases upTo
  {
    if upTo > 1 {
      var v := SendUpTo(w, e, upTo - 1).0;
      SendUpToKept(w, e, upTo - 1);
      KeepsOn(w, v, SendOne(v, e, upTo - 1).0);
    }
  }

  lemma FinalizeKept(w: World, e: StepEnv)
    requires Ends(w)
    ensures KeepsDownloads(w, Finalize(w, e))
  {
    var w1 := Say(w, ReportOf(w.mem));
    if e.final.Some? && e.final.value.accepted {
      var v := Finalize(w, e);
      var w2 := MoveTo(w1.(mem := w1.mem.(ex := v.mem.ex)), v.mem.vt);
      PutKeeps(w1, w2.disk);
      KeepsOn(w, w1, w2);
      PersistExecutionKept(w2);
      KeepsOn(w, w2, v);
    }
  }

  lemma SendEventsKept(w: World, e: StepEnv)
    requires Ends(w)
    ensures KeepsDownloads(w, SendEvents(w, e))
  {
    var meta := MetaOf(w.disk.meta);
    var w1 := SendUpTo(w, e, meta.next).0;
    SendEventsInParts(w, e);
    SendUpToKept(w, e, meta.next);
    var w2 := SaveWatermark(meta, w1);
    PutKeeps(w1, w1.disk.(meta := Some(meta.(accepted := w1.mem.accepted))));
    KeepsOn(w, w1, w2);
    PersistExecutionKept(w2);
    KeepsOn(w, w2, SentAll(w, e));
    FinalizeKept(SentAll(w, e), e);
    KeepsOn(w, SentAll(w, e), Finalize(SentAll(w, e), e));
  }

  lemma StartKept(w: World, e: StepEnv)
    requires Ends(w)
    ensures KeepsDownloads(w, Start(w, e)) && KeepsDownloads(w, RecordStart(Start(w, e)))
  {
    SayKeeps(w, StartOf(w, e));
    EmitAllKeeps(Say(w, StartOf(w, e)), e.emitted);
    KeepsOn(w, Say(w, StartOf(w, e)), Start(w, e));
    var v := Start(w, e);
    PersistExecutionKept(v.(mem := v.mem.(ex := InstallStarted)));
    KeepsOn(w, v, RecordStart(v));
  }

  lemma ExecuteKept(w: World, e: StepEnv)
    requires Ends(w)
    ensures KeepsDownloads(w, Execute(w, e))
  {
    if !NotYetStarted(w.mem.ex) {
      SendEventsKept(w, e);
    } else if e.prepared {
      StartKept(w, e);
      if e.started {
        SendEventsKept(RecordStart(Start(w, e)), e);
        KeepsOn(w, RecordStart(Start(w, e)), Execute(w, e));
      }
    }
  }

  lemma RequestKept(w: World, e: StepEnv)
    requires Ends(w)
    ensures KeepsDownloads(w, RequestPermit(w, e))
  {
    if w.mem.vt == Ready {
      PutKeeps(w, MoveTo(w, WaitingWindow).disk);
    } else if e.permit.Some? && e.permit.value.Some? {
      var p := e.permit.value.value;
      var w1 := Say(w, GrantOf(p));
      var w2 := MoveTo(w1.(mem := Hold(w1.mem, p)), Executing);
      PutKeeps(w1, w2.disk);
      KeepsOn(w, w1, w2);
      PersistExecutionKept(w2);
      KeepsOn(w, w2, PersistExecution(w2));
    }
  }

  lemma CheckTaskKept(w: World, e: StepEnv)
    requires Ends(w)
    ensures KeepsDownloads(w, CheckTask(w, e))
  {
  }

  lemma ConsentKept(w: World, e: StepEnv)
    requires Ends(w)
    ensures KeepsDownloads(w, Consent(w, e))
  {
  }

  lemma DispatchKept(w: World, e: StepEnv)
    requires Ends(w) && w.mem.vt != DownloadPending && w.mem.vt != Downloading
    ensures KeepsDownloads(w, Dispatch(w, e))
  {
    match w.mem.vt
    case NoTask => CheckTaskKept(w, e);
    case Discovered => CheckTaskKept(w, e);
    case ConsentPending => ConsentKept(w, e);
    case Ready => RequestKept(w, e);
    case WaitingWindow => RequestKept(w, e);
    case PermitPending => RequestKept(w, e);
    case Executing => ExecuteKept(w, e);
    case _ =>
  }

  lemma StepStores(w: World, e: StepEnv)
    requires Inv(w)
    ensures StoresIn(w, Step(w, e), w.mem.task, e)
  {
    var v := Settle(w);
    assert Step(w, e) == Dispatch(v, e);
    if v.mem.vt == DownloadPending || v.mem.vt == Downloading {
      DownloadStores(v, e, 0, true);
      assert Dispatch(v, e) == DownloadFrom(v, e, 0, true);
    } else {
      DispatchKept(v, e);
      KeptStores(v, Dispatch(v, e), w.mem.task, e);
    }
  }

  lemma OtherKept(w: World, op: Op)
    requires Ends(w) && !op.StepOp?
    ensures KeepsDownloads(w, Perform(w, op))
  {
    match op
    case EmitOp(payload) => EmitKeeps(w, payload);
    case ControlOp(control) => ControlKeeps(w, control);
  }

  lemma ControlKeeps(w: World, c: Control)
    requires Ends(w)
    ensures KeepsDownloads(w, ApplyControl(w, c))
  {
  }

  // ------------------------------------------------------------------------- main theorems

  /** In every history: each write of a step that touches the package records stores what one
      package of the frozen task, not ready before, has become by what the step was told. */
  lemma PackagesAreFetched(max: nat, actions: seq<Action>, e: StepEnv, i: nat)
    requires ActionsOK(actions)
    requires var w := History(First(max), actions); 0 < |w.log| <= i < |Step(w, e).log|
    ensures var w := History(First(max), actions);
            var p, m := Step(w, e).log[i - 1].disk, Step(w, e).log[i].disk;
            m.downloads != p.downloads ==>
              && w.disk.task.Some? && w.disk.task.value.snapshot.Some?
              && exists k: nat :: StoresPackage(p, m, w.disk.task.value.snapshot.value, e, k)
  {
    FirstIsSound(max);
    HistoryIsSound(First(max), actions);
    var w := History(First(max), actions);
    StepStores(w, e);
    assert Stores(Step(w, e).log[i - 1].disk, Step(w, e).log[i].disk, w.mem.task, e);
    if w.mem.vt == NoTask {
      DispatchKept(w, e);
      assert i > |w.log| ==> Step(w, e).log[i - 1].disk.downloads == w.disk.downloads;
      assert i == |w.log| ==> Step(w, e).log[i - 1] == w.log[|w.log| - 1];
    }
  }

  /** A ready package keeps its record. */
  predicate KeepsReady(p: Disk, m: Disk) {
    forall id :: id in p.downloads && p.downloads[id].ready ==> id in m.downloads && m.downloads[id] == p.downloads[id]
  }

  ghost predicate ReadyKept(log: seq<Moment>) {
    forall i :: 0 < i < |log| ==> KeepsReady(log[i - 1].disk, log[i].disk)
  }

  lemma OperationKeepsReady(w: World, op: Op, i: nat)
    requires Inv(w) && |w.log| <= i < |Perform(w, op).log| && w.log <= Perform(w, op).log
    ensures KeepsReady(Perform(w, op).log[i - 1].disk, Perform(w, op).log[i].disk)
  {
    var v := Perform(w, op);
    if op.StepOp? {
      StepStores(w, op.env);
      assert Stores(v.log[i - 1].disk, v.log[i].disk, w.mem.task, op.env);
    } else {
      OtherKept(w, op);
      assert i == |w.log| ==> v.log[i - 1] == w.log[|w.log| - 1];
    }
  }

  lemma ReadyKeptOn(w: World, op: Op, n: nat)
    requires Inv(w) && OpOK(op) && ReadyKept(w.log) && n <= |Perform(w, op).log|
    ensures ReadyKept(Perform(w, op).log[..n])
  {
    PerformKeeps(w, op);
    var all, some := Perform(w, op).log, Perform(w, op).log[..n];
    forall i | 0 < i < n
      ensures KeepsReady(some[i - 1].disk, some[i].disk)
    {
      assert some[i - 1] == all[i - 1] && some[i] == all[i];
      if i < |w.log| {
        assert all[i - 1] == w.log[i - 1] && all[i] == w.log[i];
      } else {
        OperationKeepsReady(w, op, i);
      }
    }
  }

  lemma ActKeepsReady(w: World, a: Action)
    requires Inv(w) && (a.RestartNow? || OpOK(a.op)) && ReadyKept(w.log)
    ensures ReadyKept(Act(w, a).log)
  {
    if !a.RestartNow? {
      var v := Perform(w, a.op);
      ReadyKeptOn(w, a.op, |v.log|);
      assert v.log[..|v.log|] == v.log;
      if a.DieIn? {
        ReadyKeptOn(w, a.op, Kept(w, v, a.moments));
      }
    }
  }

  lemma {:induction false} HistoryKeepsReady(w: World, actions: seq<Action>)
    requires Inv(w) && ActionsOK(actions) && ReadyKept(w.log)
    ensures ReadyKept(History(w, actions).log)
    decreases |actions|
  {
    if actions != [] {
      ActKeeps(w, actions[0]);
      ActKeepsReady(w, actions[0]);
      HistoryKeepsReady(Act(w, actions[0]), actions[1..]);
    }
  }

  lemma {:induction false} ReadyAlong(log: seq<Moment>, i: nat, j: nat)
    requires ReadyKept(log) && i <= j < |log|
    ensures KeepsReady(log[i].disk, log[j].disk)
    decreases j
  {
    if i < j {
      ReadyAlong(log, i, j - 1);
      assert KeepsReady(log[j - 1].disk, log[j].disk);
    }
  }

  /** In every history, with stops anywhere: once the record of a package is ready it never
      changes again, whatever task names the package later. */
  lemma ReadyIsForGood(max: nat, actions: seq<Action>, i: nat, j: nat, id: Id)
    requires ActionsOK(actions) && i <= j < |History(First(max), actions).log|
    requires var d := History(First(max), actions).log[i].disk; id in d.downloads && d.downloads[id].ready
    ensures var log := History(First(max), actions).log;
            id in log[j].disk.downloads && log[j].disk.downloads[id] == log[i].disk.downloads[id]
  {
    FirstIsSound(max);
    HistoryKeepsReady(First(max), actions);
    ReadyAlong(History(First(max), actions).log, i, j);
  }
}
