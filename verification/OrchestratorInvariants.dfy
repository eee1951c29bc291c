/** What every moment of every history keeps, wherever the process stops. */
module OrchestratorInvariants {
  import opened Wrappers
  import opened Bytes
  import opened OrchestratorState
  import opened OrchestratorSpec

  // ------------------------------------------------------------------------- the outbox

  ghost predicate OutboxOK(meta: Option<MetaRec>, events: map<nat, EventRec>, max: nat) {
    var m := MetaOf(meta);
    && 1 <= m.next <= max + 1
    && (forall s: nat :: 1 <= s < m.next ==> s in events && events[s].number == s)
    && WatermarkOK(m.accepted, m.next, events)
  }

  /** A watermark other than 0 names an acknowledged event below the next number. */
  predicate WatermarkOK(accepted: nat, next: nat, events: map<nat, EventRec>) {
    accepted == 0 || (accepted < next && accepted in events && events[accepted].status == Acked)
  }

  /** Below the next number, payloads stay and acknowledgements stay. */
  ghost predicate OutboxGrows(before: Disk, after: Disk) {
    var next := MetaOf(before.meta).next;
    && next <= MetaOf(after.meta).next
    && EventsStay(before.events, after.events, next)
  }

  ghost predicate EventsStay(before: map<nat, EventRec>, after: map<nat, EventRec>, next: nat) {
    forall s: nat :: 1 <= s < next && s in before ==>
      && s in after && after[s].payload == before[s].payload
      && (before[s].status == Acked ==> after[s].status == Acked)
  }

  /** Every event with a payload has been acknowledged. */
  ghost predicate AllSettled(events: map<nat, EventRec>, next: nat) {
    forall s: nat :: 1 <= s < next && s in events ==> events[s].payload == [] || events[s].status == Acked
  }

  // --------------------------------------------------------------------------- the gate

  predicate AfterPermit(vt: VtState) {
    vt == Executing || vt == RollbackPending
  }

  predicate AfterDownload(vt: VtState) {
    vt == Ready || vt == WaitingWindow || vt == PermitPending || vt == RetryPending || AfterPermit(vt)
  }

  predicate AfterConsent(vt: VtState) {
    vt == DownloadPending || vt == Downloading || AfterDownload(vt)
  }

  predicate ConsentOK(t: Task, consent: Option<ConsentRec>) {
    t.consentRequired ==> consent.Some? && consent.value.accepted && consent.value.taskId == t.id
  }

  ghost predicate ReadyUpTo(t: Task, downloads: map<Id, DownloadRec>, n: nat)
    requires n <= |t.packages|
  {
    forall i :: 0 <= i < n ==> t.packages[i].id in downloads && downloads[t.packages[i].id].ready
  }

  ghost predicate AllReady(t: Task, downloads: map<Id, DownloadRec>) {
    ReadyUpTo(t, downloads, |t.packages|)
  }

  /** What being in a state promises about the task. */
  ghost predicate StateOK(vt: VtState, t: Task, consent: Option<ConsentRec>, downloads: map<Id, DownloadRec>, permits: nat) {
    && (AfterConsent(vt) ==> ConsentOK(t, consent))
    && (AfterDownload(vt) ==> AllReady(t, downloads))
    && (AfterPermit(vt) ==> permits > 0)
  }

  ghost predicate StoredStateOK(
    r: Option<VehicleTaskRec>, consent: Option<ConsentRec>, downloads: map<Id, DownloadRec>, permits: nat) {
    r.Some? ==>
      && r.value.snapshot.Some? && r.value.snapshot.value != DEFAULT_TASK
      && StateOK(r.value.state, r.value.snapshot.value, consent, downloads, permits)
  }

  ghost predicate DownloadsKeyed(downloads: map<Id, DownloadRec>) {
    forall id :: id in downloads ==> downloads[id].packageId == id
  }

  // ----------------------------------------------------------------------- whole moments

  ghost predicate DiskOK(d: Disk, t: Tally, max: nat) {
    && OutboxOK(d.meta, d.events, max)
    && StoredStateOK(d.task, d.consent, d.downloads, t.permits)
    && DownloadsKeyed(d.downloads)
    && t.applied <= d.controls.Keys
  }

  /** The frozen task on disk is consented to, all its packages are ready, a permit came. */
  ghost predicate InstallAllowed(d: Disk, t: Tally) {
    && d.task.Some? && d.task.value.snapshot.Some?
    && ConsentOK(d.task.value.snapshot.value, d.consent)
    && AllReady(d.task.value.snapshot.value, d.downloads)
    && t.permits > 0
  }

  ghost predicate CallOK(m: Moment) {
    match m.call
    case StartCalled(_, _) => InstallAllowed(m.disk, m.tally)
    case FinalReported(finalSeq, _) =>
      var next := MetaOf(m.disk.meta).next;
      AllSettled(m.disk.events, next) && WatermarkOK(finalSeq, next, m.disk.events)
    case _ => true
  }

  ghost predicate Follows(a: Moment, b: Moment) {
    && OutboxGrows(a.disk, b.disk)
    && a.disk.controls.Keys <= b.disk.controls.Keys
    && b.tally == Counted(a.tally, b.call)
    && (b.call.ApplyCalled? ==> b.call.revision !in a.tally.applied)
  }

  ghost predicate LogOK(log: seq<Moment>, max: nat) {
    && |log| > 0
    && (forall i :: 0 <= i < |log| ==> DiskOK(log[i].disk, log[i].tally, max) && CallOK(log[i]))
    && (forall i, j :: 0 <= i && j == i + 1 && j < |log| ==> Follows(log[i], log[j]))
  }

  /** The history is sound up to now, and ends in the present disk. */
  ghost predicate Sound(w: World) {
    && LogOK(w.log, w.max)
    && w.log[|w.log| - 1].disk == w.disk && w.log[|w.log| - 1].tally == w.tally
    && DiskOK(w.disk, w.tally, w.max)
  }

  /** `v` continues the history of `w` soundly. */
  ghost predicate Continues(w: World, v: World) {
    Sound(v) && w.log <= v.log && v.max == w.max
  }

  ghost predicate Grows(before: Disk, after: Disk) {
    OutboxGrows(before, after) && before.controls.Keys <= after.controls.Keys
  }

  lemma AppendKeeps(log: seq<Moment>, m: Moment, max: nat)
    requires LogOK(log, max) && DiskOK(m.disk, m.tally, max) && CallOK(m) && Follows(log[|log| - 1], m)
    ensures LogOK(log + [m], max)
  {
    var all := log + [m];
    forall i, j | 0 <= i && j == i + 1 && j < |all|
      ensures Follows(all[i], all[j])
    {
      if j < |log| {
        assert all[i] == log[i] && all[j] == log[j];
      }
    }
  }

  /** One durable write keeps the history sound if the new disk is sound and has grown. */
  lemma PutContinues(w: World, d: Disk)
    requires Sound(w) && DiskOK(d, w.tally, w.max) && Grows(w.disk, d)
    ensures Continues(w, Put(w, d))
  {
    AppendKeeps(w.log, Moment(Wrote, d, w.tally), w.max);
  }

  lemma SayContinues(w: World, call: Call)
    requires Sound(w)
    requires CallOK(Moment(call, w.disk, Counted(w.tally, call)))
    requires call.ApplyCalled? ==> call.revision in w.disk.controls && call.revision !in w.tally.applied
    ensures Continues(w, Say(w, call))
  {
    var t := Counted(w.tally, call);
    assert DiskOK(w.disk, t, w.max);
    AppendKeeps(w.log, Moment(call, w.disk, t), w.max);
  }

  lemma ContinuesOn(u: World, v: World, w: World)
    requires Continues(u, v) && Continues(v, w)
    ensures Continues(u, w)
  {
  }

  // ---------------------------------------------------------------- memory against the disk

  ghost predicate CountersOK(w: World) {
    var next := MetaOf(w.disk.meta).next;
    w.mem.next == next && WatermarkOK(w.mem.accepted, next, w.disk.events)
  }

  /** A state in memory and the state last stored, between operations. */
  predicate SameStage(vt: VtState, stored: VtState) {
    || vt == stored
    || (vt == Downloading && stored == DownloadPending)
    || (vt == PermitPending && stored == RetryPending)
    || (vt == Executing && stored == RollbackPending)
  }

  ghost predicate TaskOK(w: World) {
    && (match w.disk.task
        case None => w.mem.vt == NoTask
        case Some(r) => r.snapshot == Some(w.mem.task) && SameStage(w.mem.vt, r.state))
    && StateOK(w.mem.vt, w.mem.task, w.disk.consent, w.disk.downloads, w.tally.permits)
  }

  /** The invariant between operations. */
  ghost predicate Inv(w: World) {
    Sound(w) && CountersOK(w) && TaskOK(w)
  }

  // --------------------------------------------------------------------- persistence, events

  lemma MoveToKeeps(w: World, vt: VtState)
    requires Sound(w) && CountersOK(w) && w.mem.task != DEFAULT_TASK
    requires StateOK(vt, w.mem.task, w.disk.consent, w.disk.downloads, w.tally.permits)
    ensures Continues(w, MoveTo(w, vt)) && Inv(MoveTo(w, vt))
  {
    PutContinues(w, MoveTo(w, vt).disk);
  }

  lemma SaveExecutionKeeps(w: World, r: ExecutionRec)
    requires Inv(w)
    ensures var w1 := Put(w, w.disk.(execution := Some(r))); Continues(w, w1) && Inv(w1)
  {
    PutContinues(w, w.disk.(execution := Some(r)));
  }

  lemma SaveMetaKeeps(w: World, accepted: nat)
    requires Inv(w) && WatermarkOK(accepted, w.mem.next, w.disk.events)
    ensures var w1 := Put(w, w.disk.(meta := Some(MetaRec(w.mem.next, accepted)))); Continues(w, w1) && Inv(w1)
  {
    PutContinues(w, w.disk.(meta := Some(MetaRec(w.mem.next, accepted))));
  }

  lemma PersistExecutionKeeps(w: World)
    requires Inv(w)
    ensures Continues(w, PersistExecution(w)) && Inv(PersistExecution(w))
    ensures PersistExecution(w).mem == w.mem && PersistExecution(w).disk.events == w.disk.events
  {
    var w1 := Put(w, w.disk.(execution := Some(ExecutionOf(w.mem))));
    SaveExecutionKeeps(w, ExecutionOf(w.mem));
    SaveMetaKeeps(w1, w.mem.accepted);
    ContinuesOn(w, w1, PersistExecution(w));
  }

  lemma OutboxTakesRecord(meta: Option<MetaRec>, events: map<nat, EventRec>, max: nat, payload: ByteString)
    requires OutboxOK(meta, events, max)
    ensures var m := MetaOf(meta);
            var events' := events[m.next := EventRec(m.next, payload, Pending)];
            && OutboxOK(meta, events', max) && EventsStay(events, events', m.next)
            && (forall accepted :: WatermarkOK(accepted, m.next, events) ==> WatermarkOK(accepted, m.next, events'))
  {
  }

  lemma SaveNewEventKeeps(w: World, payload: ByteString)
    requires Inv(w)
    ensures Continues(w, SaveNewEvent(w, payload)) && Inv(SaveNewEvent(w, payload))
  {
    OutboxTakesRecord(w.disk.meta, w.disk.events, w.max, payload);
    PutContinues(w, SaveNewEvent(w, payload).disk);
  }

  lemma OutboxAdvances(m: MetaRec, events: map<nat, EventRec>, max: nat, accepted: nat)
    requires OutboxOK(Some(m), events, max) && m.next - 1 < max
    requires m.next in events && events[m.next].number == m.next && WatermarkOK(accepted, m.next, events)
    ensures OutboxOK(Some(m.(next := m.next + 1)), events, max) && WatermarkOK(accepted, m.next + 1, events)
    ensures EventsStay(events, events, m.next)
  {
  }

  lemma SaveNextContinues(w: World)
    requires Inv(w) && w.mem.next - 1 < w.max && w.mem.next in w.disk.events
    requires w.disk.events[w.mem.next].number == w.mem.next
    ensures Continues(w, SaveNext(w))
  {
    OutboxAdvances(MetaOf(w.disk.meta), w.disk.events, w.max, w.mem.accepted);
    PutContinues(w, SaveNext(w).disk);
  }

  lemma AdvanceNextKeeps(w: World)
    requires Inv(w) && w.mem.next - 1 < w.max && w.mem.next in w.disk.events
    requires w.disk.events[w.mem.next].number == w.mem.next
    ensures Continues(w, AdvanceNext(w)) && Inv(AdvanceNext(w))
  {
    SaveNextContinues(w);
  }

  lemma EmitKeeps(w: World, payload: ByteString)
    requires Inv(w)
    ensures Continues(w, Emit(w, payload)) && Inv(Emit(w, payload))
  {
    if !OutboxFull(w) {
      SaveNewEventKeeps(w, payload);
      AdvanceNextKeeps(SaveNewEvent(w, payload));
      ContinuesOn(w, SaveNewEvent(w, payload), Emit(w, payload));
    }
  }

  lemma {:induction false} EmitAllKeeps(w: World, payloads: seq<ByteString>)
    requires Inv(w)
    ensures Continues(w, EmitAll(w, payloads)) && Inv(EmitAll(w, payloads))
    decreases |payloads|
  {
    if payloads != [] {
      var n := |payloads| - 1;
      EmitAllKeeps(w, payloads[..n]);
      EmitKeeps(EmitAll(w, payloads[..n]), payloads[n]);
      ContinuesOn(w, EmitAll(w, payloads[..n]), EmitAll(w, payloads));
    }
  }

  // ---------------------------------------------------------------------- the task's phases

  lemma TaskIsReal(w: World)
    requires Inv(w) && w.mem.vt != NoTask
    ensures w.mem.task != DEFAULT_TASK
  {
  }

  lemma FreezeKeeps(w: World, task: Task)
    requires Inv(w) && task != DEFAULT_TASK
    ensures Continues(w, Freeze(w, task)) && Inv(Freeze(w, task))
  {
    var v := w.(mem := w.mem.(task := task, vt := Discovered));
    MoveToKeeps(v, Discovered);
  }

  lemma AcceptKeeps(w: World, task: Task)
    requires Inv(w) && task != DEFAULT_TASK
    ensures Continues(w, Accept(w, task)) && Inv(Accept(w, task))
  {
    var vt := if task.consentRequired then ConsentPending else DownloadPending;
    FreezeKeeps(w, task);
    MoveToKeeps(Freeze(w, task), vt);
    ContinuesOn(w, Freeze(w, task), MoveTo(Freeze(w, task), vt));
  }

  lemma CheckTaskKeeps(w: World, e: StepEnv)
    requires Inv(w)
    requires e.check.Some? && e.check.value.TaskFound? ==> e.check.value.task != DEFAULT_TASK
    ensures Continues(w, CheckTask(w, e)) && Inv(CheckTask(w, e))
  {
    match e.check
    case None =>
    case Some(NotAccepted) => PutContinues(w, w.disk.(fullRequired := true));
    case Some(TaskMissing) =>
    case Some(TaskFound(task)) =>
      AcceptKeeps(w, task);
  }

  lemma SaveConsentKeeps(w: World, reply: ConsentReply)
    requires Inv(w) && w.mem.vt == ConsentPending
    ensures Continues(w, SaveConsent(w, reply)) && Inv(SaveConsent(w, reply))
  {
    PutContinues(w, SaveConsent(w, reply).disk);
  }

  lemma ConsentKeeps(w: World, e: StepEnv)
    requires Inv(w) && w.mem.vt == ConsentPending
    ensures Continues(w, Consent(w, e)) && Inv(Consent(w, e))
  {
    match e.consent
    case None =>
    case Some(reply) =>
      TaskIsReal(w);
      SaveConsentKeeps(w, reply);
      MoveToKeeps(SaveConsent(w, reply), if reply.accepted then DownloadPending else Ended);
      ContinuesOn(w, SaveConsent(w, reply), Consent(w, e));
  }

  // -------------------------------------------------------------------------- downloading

  /** A download that succeeds carries a stage result. */
  ghost predicate Staged(e: StepEnv) {
    forall i :: e.package(i).outcome.succeeded ==> e.package(i).outcome.stage.Some?
  }

  lemma FetchedEntry(entry: DownloadRec, p: Package, env: PackageEnv)
    requires !entry.ready
    ensures var f := Fetch(entry, p, env);
            && f.entry.packageId == entry.packageId
            && (f.entry.ready ==> !f.failed && !f.heldBack)
            && (!f.failed && !f.heldBack ==> env.outcome.succeeded && (env.outcome.stage.Some? ==> f.entry.ready))
  {
  }

  /** Entries that are ready stay ready. */
  ghost predicate ReadyStay(before: map<Id, DownloadRec>, after: map<Id, DownloadRec>) {
    forall id :: id in before && before[id].ready ==> id in after && after[id].ready
  }

  lemma ReadyStayKeeps(
    vt: VtState, t: Task, consent: Option<ConsentRec>, a: map<Id, DownloadRec>, b: map<Id, DownloadRec>, permits: nat)
    requires StateOK(vt, t, consent, a, permits) && ReadyStay(a, b)
    ensures StateOK(vt, t, consent, b, permits)
  {
    if AfterDownload(vt) {
      forall i | 0 <= i < |t.packages|
        ensures t.packages[i].id in b && b[t.packages[i].id].ready
      {
      }
    }
  }

  lemma SaveDownloadKeeps(w: World, entry: DownloadRec)
    requires Inv(w)
    requires entry.packageId in w.disk.downloads && w.disk.downloads[entry.packageId].ready ==> entry.ready
    ensures Continues(w, SaveDownload(w, entry)) && Inv(SaveDownload(w, entry))
    ensures ReadyStay(w.disk.downloads, SaveDownload(w, entry).disk.downloads)
  {
    var d := SaveDownload(w, entry).disk;
    var r := w.disk.task;
    if r.Some? {
      ReadyStayKeeps(r.value.state, r.value.snapshot.value, w.disk.consent, w.disk.downloads, d.downloads, w.tally.permits);
    }
    ReadyStayKeeps(w.mem.vt, w.mem.task, w.disk.consent, w.disk.downloads, d.downloads, w.tally.permits);
    PutContinues(w, d);
  }

  lemma DownloadEndKeeps(w: World, e: StepEnv, allReady: bool)
    requires Inv(w) && (w.mem.vt == DownloadPending || w.mem.vt == Downloading)
    requires allReady ==> AllReady(w.mem.task, w.disk.downloads)
    ensures var v := DownloadFrom(w, e, |w.mem.task.packages|, allReady); Continues(w, v) && Inv(v)
  {
    TaskIsReal(w);
    MoveToKeeps(w, if allReady then Ready else Downloading);
  }

  lemma ReadyIsReady(d: Disk, t: Task, i: nat)
    requires i < |t.packages| && ReadyUpTo(t, d.downloads, i) && DownloadEntry(d, t.packages[i]).ready
    ensures ReadyUpTo(t, d.downloads, i + 1)
  {
  }

  lemma {:induction false} DownloadKeeps(w: World, e: StepEnv, i: nat, allReady: bool)
    requires Inv(w) && Staged(e) && (w.mem.vt == DownloadPending || w.mem.vt == Downloading)
    requires i <= |w.mem.task.packages| && (allReady ==> ReadyUpTo(w.mem.task, w.disk.downloads, i))
    ensures Continues(w, DownloadFrom(w, e, i, allReady)) && Inv(DownloadFrom(w, e, i, allReady))
    decreases |w.mem.task.packages| - i
  {
    if i == |w.mem.task.packages| {
      DownloadEndKeeps(w, e, allReady);
    } else if DownloadEntry(w.disk, w.mem.task.packages[i]).ready {
      if allReady {
        ReadyIsReady(w.disk, w.mem.task, i);
      }
      DownloadKeeps(w, e, i + 1, allReady);
    } else {
      DownloadOneKeeps(w, e, i, allReady);
      var f := Fetch(DownloadEntry(w.disk, w.mem.task.packages[i]), w.mem.task.packages[i], e.package(i));
      if !f.failed {
        var w1 := SaveDownload(w, f.entry);
        DownloadKeeps(w1, e, i + 1, allReady && !f.heldBack);
        ContinuesOn(w, w1, DownloadFrom(w1, e, i + 1, allReady && !f.heldBack));
      }
    }
  }

  lemma DownloadOneKeeps(w: World, e: StepEnv, i: nat, allReady: bool)
    requires Inv(w) && Staged(e) && (w.mem.vt == DownloadPending || w.mem.vt == Downloading)
    requires i < |w.mem.task.packages| && (allReady ==> ReadyUpTo(w.mem.task, w.disk.downloads, i))
    requires !DownloadEntry(w.disk, w.mem.task.packages[i]).ready
    ensures var p := w.mem.task.packages[i];
            var f := Fetch(DownloadEntry(w.disk, p), p, e.package(i));
            var w1 := SaveDownload(w, f.entry);
            var v := SaveDownload(w.(mem := w.mem.(vt := Downloading)), f.entry);
            && Continues(w, w1) && Inv(w1) && Continues(w, v) && Inv(v)
            && (allReady && !f.failed && !f.heldBack ==> ReadyUpTo(w.mem.task, w1.disk.downloads, i + 1))
  {
    var p := w.mem.task.packages[i];
    var f := Fetch(DownloadEntry(w.disk, p), p, e.package(i));
    FetchedEntry(DownloadEntry(w.disk, p), p, e.package(i));
    assert f.entry.packageId == p.id;
    SaveDownloadKeeps(w, f.entry);
    var u := w.(mem := w.mem.(vt := Downloading));
    SaveDownloadKeeps(u, f.entry);
  }

  // ----------------------------------------------------------------------- install permit

  lemma GrantKeeps(w: World, permit: Permit)
    requires Inv(w)
    ensures Continues(w, Say(w, GrantOf(permit))) && Inv(Say(w, GrantOf(permit)))
  {
    SayContinues(w, GrantOf(permit));
  }

  lemma TakePermitKeeps(w: World, permit: Permit)
    requires Inv(w) && AfterDownload(w.mem.vt) && w.tally.permits > 0
    ensures Continues(w, TakePermit(w, permit)) && Inv(TakePermit(w, permit))
  {
    TaskIsReal(w);
    var v := w.(mem := Hold(w.mem, permit));
    MoveToKeeps(v, Executing);
    PersistExecutionKeeps(MoveTo(v, Executing));
    ContinuesOn(w, MoveTo(v, Executing), TakePermit(w, permit));
  }

  lemma RequestPermitKeeps(w: World, e: StepEnv)
    requires Inv(w) && (w.mem.vt == Ready || w.mem.vt == WaitingWindow || w.mem.vt == PermitPending)
    ensures Continues(w, RequestPermit(w, e)) && Inv(RequestPermit(w, e))
  {
    TaskIsReal(w);
    if w.mem.vt == Ready {
      MoveToKeeps(w, WaitingWindow);
    } else if e.permit.Some? && e.permit.value.Some? {
      var permit := e.permit.value.value;
      var w1 := Say(w, GrantOf(permit));
      GrantKeeps(w, permit);
      TakePermitKeeps(w1, permit);
      ContinuesOn(w, w1, TakePermit(w1, permit));
    }
  }

  // ---------------------------------------------------------------------------- execution

  lemma OutboxTakesStatus(meta: Option<MetaRec>, events: map<nat, EventRec>, max: nat, s: nat, status: SendStatus)
    requires OutboxOK(meta, events, max) && 1 <= s < MetaOf(meta).next
    requires events[s].status != Acked
    ensures var events' := events[s := events[s].(status := status)];
            && OutboxOK(meta, events', max) && EventsStay(events, events', MetaOf(meta).next)
            && (forall accepted :: WatermarkOK(accepted, MetaOf(meta).next, events) ==>
                                     WatermarkOK(accepted, MetaOf(meta).next, events'))
            && (status == Acked ==> WatermarkOK(s, MetaOf(meta).next, events'))
  {
  }

  /** One event saved with a new status; a new watermark may name it once it is acknowledged. */
  lemma SaveEventKeeps(w: World, s: nat, status: SendStatus, accepted: nat)
    requires Inv(w) && 1 <= s < w.mem.next && w.disk.events[s].status != Acked
    requires accepted == w.mem.accepted || (accepted == s && status == Acked)
    ensures var v := SaveEvent(w.(mem := w.mem.(accepted := accepted)), w.disk.events[s].(status := status));
            && Continues(w, v) && Inv(v) && EventsStay(w.disk.events, v.disk.events, w.mem.next)
  {
    OutboxTakesStatus(w.disk.meta, w.disk.events, w.max, s, status);
    PutContinues(w, w.disk.(events := w.disk.events[s := w.disk.events[s].(status := status)]));
  }

  lemma SendOneKeeps(w: World, e: StepEnv, s: nat)
    requires Inv(w) && 1 <= s < w.mem.next
    ensures var (v, again) := SendOne(w, e, s);
            && Continues(w, v) && Inv(v) && EventsStay(w.disk.events, v.disk.events, w.mem.next)
            && v.disk.meta == w.disk.meta && v.mem.next == w.mem.next && v.mem.vt == w.mem.vt
            && (!again ==> v.disk.events[s].payload == [] || v.disk.events[s].status == Acked)
  {
    assert s in w.disk.events && w.disk.events[s].number == s;
    var event := w.disk.events[s];
    if event.status == Acked {
    } else if event.payload == [] {
      SaveEventKeeps(w, s, Sent, w.mem.accepted);
    } else if e.report(s) == Some(EventAccepted) {
      SaveEventKeeps(w, s, Acked, Later(w.mem.accepted, s));
    } else {
      SaveEventKeeps(w, s, event.status, w.mem.accepted);
    }
  }

  lemma SettledStay(a: map<nat, EventRec>, b: map<nat, EventRec>, next: nat, upTo: nat)
    requires AllSettled(a, upTo) && EventsStay(a, b, next) && upTo <= next
    requires forall s: nat :: 1 <= s < upTo ==> s in a
    ensures AllSettled(b, upTo)
  {
  }

  lemma EventsStayOn(a: map<nat, EventRec>, b: map<nat, EventRec>, c: map<nat, EventRec>, next: nat)
    requires EventsStay(a, b, next) && EventsStay(b, c, next)
    ensures EventsStay(a, c, next)
  {
  }

  /** Numbers below `upTo` have been gone through, from `w` to `v`. */
  ghost predicate SentUpTo(w: World, v: World, upTo: nat, again: bool) {
    && Continues(w, v) && Inv(v)
    && v.disk.meta == w.disk.meta && v.mem.next == w.mem.next && v.mem.vt == w.mem.vt
    && (!again ==> AllSettled(v.disk.events, upTo))
  }

  lemma SettledOneMore(a: map<nat, EventRec>, b: map<nat, EventRec>, next: nat, s: nat)
    requires AllSettled(a, s) && EventsStay(a, b, next) && 1 <= s < next
    requires forall k: nat :: 1 <= k < next ==> k in a
    requires s in b && (b[s].payload == [] || b[s].status == Acked)
    ensures AllSettled(b, s + 1)
  {
    SettledStay(a, b, next, s);
  }

  lemma SendNextKeeps(w: World, v: World, again: bool, e: StepEnv, s: nat)
    requires SentUpTo(w, v, s, again) && 1 <= s < w.mem.next
    ensures var (v1, again1) := SendOne(v, e, s); SentUpTo(w, v1, s + 1, again || again1)
  {
    SendOneKeeps(v, e, s);
    var (v1, again1) := SendOne(v, e, s);
    assert Continues(w, v1) by {
      ContinuesOn(w, v, v1);
    }
    if !again && !again1 {
      SettledOneMore(v.disk.events, v1.disk.events, v.mem.next, s);
    }
  }

  lemma {:induction false} SendUpToKeeps(w: World, e: StepEnv, upTo: nat)
    requires Inv(w) && upTo <= w.mem.next
    ensures SentUpTo(w, SendUpTo(w, e, upTo).0, upTo, SendUpTo(w, e, upTo).1)
    decreases upTo
  {
    if upTo > 1 {
      SendUpToKeeps(w, e, upTo - 1);
      var (v, again) := SendUpTo(w, e, upTo - 1);
      SendNextKeeps(w, v, again, e, upTo - 1);
    }
  }

  lemma ReportKeeps(w: World)
    requires Inv(w) && AllSettled(w.disk.events, w.mem.next)
    ensures var w1 := Say(w, ReportOf(w.mem)); Continues(w, w1) && Inv(w1)
  {
    SayContinues(w, ReportOf(w.mem));
  }

  lemma FinalizeKeeps(w: World, e: StepEnv)
    requires Inv(w) && w.mem.vt == Executing && AllSettled(w.disk.events, w.mem.next)
    ensures Continues(w, Finalize(w, e)) && Inv(Finalize(w, e))
  {
    var w1 := Say(w, ReportOf(w.mem));
    ReportKeeps(w);
    if e.final.Some? && e.final.value.accepted {
      assert Finalize(w, e) == Conclude(w1, e.final.value);
      ConcludeKeeps(w1, e.final.value);
      ContinuesOn(w, w1, Conclude(w1, e.final.value));
    } else {
      assert Finalize(w, e) == w1;
    }
  }

  lemma ConcludeKeeps(w: World, reply: FinalReply)
    requires Inv(w) && w.mem.vt == Executing
    ensures Continues(w, Conclude(w, reply)) && Inv(Conclude(w, reply))
  {
    var ex := if reply.state == RetryPending then Failed else if w.mem.ex == Rollback then RolledBack else Succeeded;
    var vt := if reply.state == NoTask then Completed else reply.state;
    assert Conclude(w, reply) == Close(w, ex, vt);
    CloseKeeps(w, ex, vt);
  }

  lemma CloseKeeps(w: World, ex: ExState, vt: VtState)
    requires Inv(w) && w.mem.vt == Executing
    ensures Continues(w, Close(w, ex, vt)) && Inv(Close(w, ex, vt))
  {
    TaskIsReal(w);
    var v := w.(mem := w.mem.(ex := ex));
    MoveToKeeps(v, vt);
    PersistExecutionKeeps(MoveTo(v, vt));
    ContinuesOn(w, MoveTo(v, vt), Close(w, ex, vt));
  }

  lemma SendEventsKeeps(w: World, e: StepEnv)
    requires Inv(w) && w.mem.vt == Executing
    ensures Continues(w, SendEvents(w, e)) && Inv(SendEvents(w, e))
  {
    var meta := MetaOf(w.disk.meta);
    SendUpToKeeps(w, e, meta.next);
    var (w1, again) := SendUpTo(w, e, meta.next);
    var w2 := if meta.accepted < w1.mem.accepted
              then Put(w1, w1.disk.(meta := Some(meta.(accepted := w1.mem.accepted)))) else w1;
    if meta.accepted < w1.mem.accepted {
      SaveMetaKeeps(w1, w1.mem.accepted);
      ContinuesOn(w, w1, w2);
    }
    PersistExecutionKeeps(w2);
    var w3 := PersistExecution(w2);
    ContinuesOn(w, w2, w3);
    if !again {
      FinalizeKeeps(w3, e);
      ContinuesOn(w, w3, Finalize(w3, e));
    }
  }

  lemma StartKeeps(w: World, e: StepEnv)
    requires Inv(w) && w.mem.vt == Executing
    ensures Continues(w, Say(w, StartOf(w, e))) && Inv(Say(w, StartOf(w, e)))
  {
    SayContinues(w, StartOf(w, e));
  }

  lemma ExecuteKeeps(w: World, e: StepEnv)
    requires Inv(w) && w.mem.vt == Executing
    ensures Continues(w, Execute(w, e)) && Inv(Execute(w, e))
  {
    if !NotYetStarted(w.mem.ex) {
      SendEventsKeeps(w, e);
    } else if e.prepared {
      var w0 := Say(w, StartOf(w, e));
      StartKeeps(w, e);
      EmitAllKeeps(w0, e.emitted);
      EmitAllKeepsPhase(w0, e.emitted);
      var w1 := EmitAll(w0, e.emitted);
      ContinuesOn(w, w0, w1);
      if e.started {
        RecordedSendKeeps(w1, e);
        ContinuesOn(w, w1, Execute(w, e));
      }
    }
  }

  lemma RecordedSendKeeps(w: World, e: StepEnv)
    requires Inv(w) && w.mem.vt == Executing
    ensures var v := SendEvents(RecordStart(w), e); Continues(w, v) && Inv(v)
  {
    PersistExecutionKeeps(w.(mem := w.mem.(ex := InstallStarted)));
    SendEventsKeeps(RecordStart(w), e);
    ContinuesOn(w, RecordStart(w), SendEvents(RecordStart(w), e));
  }

  lemma {:induction false} EmitAllKeepsPhase(w: World, payloads: seq<ByteString>)
    ensures EmitAll(w, payloads).mem == w.mem.(next := EmitAll(w, payloads).mem.next)
    decreases |payloads|
  {
    if payloads != [] {
      EmitAllKeepsPhase(w, payloads[..|payloads| - 1]);
    }
  }

  // ----------------------------------------------------------------------------- controls

  lemma SaveControlKeeps(w: World, r: ControlRec)
    requires Inv(w)
    ensures Continues(w, SaveControl(w, r)) && Inv(SaveControl(w, r))
  {
    PutContinues(w, SaveControl(w, r).disk);
  }

  lemma ReceiveKeeps(w: World, c: Control)
    requires Inv(w)
    ensures Continues(w, Receive(w, c)) && Inv(Receive(w, c))
  {
    SaveControlKeeps(w, ControlRec(c.controlId, c.revision, None));
  }

  lemma ApplyKeeps(w: World, revision: nat)
    requires Inv(w) && revision in w.disk.controls && revision !in w.tally.applied
    ensures Continues(w, Say(w, ApplyCalled(revision))) && Inv(Say(w, ApplyCalled(revision)))
  {
    SayContinues(w, ApplyCalled(revision));
  }

  lemma TakeAckKeeps(w: World, c: Control)
    requires Inv(w)
    ensures Continues(w, TakeAck(w, c)) && Inv(TakeAck(w, c))
  {
    SaveControlKeeps(w, ControlRec(c.controlId, c.revision, Some(w.mem.ackSeq)));
  }

  lemma AcknowledgeKeeps(w: World, c: Control)
    requires Inv(w)
    ensures Continues(w, Acknowledge(w, c)) && Inv(Acknowledge(w, c))
  {
    TakeAckKeeps(w, c);
    SayContinues(TakeAck(w, c), AckSent(w.mem.ackSeq));
    ContinuesOn(w, TakeAck(w, c), Acknowledge(w, c));
  }

  lemma ApplyControlKeeps(w: World, c: Control)
    requires Inv(w)
    ensures Continues(w, ApplyControl(w, c)) && Inv(ApplyControl(w, c))
  {
    if c.revision !in w.disk.controls {
      ReceiveKeeps(w, c);
      var w1 := Say(Receive(w, c), ApplyCalled(c.revision));
      ApplyKeeps(Receive(w, c), c.revision);
      ContinuesOn(w, Receive(w, c), w1);
      if c.applied {
        AcknowledgeKeeps(w1, c);
        ContinuesOn(w, w1, Acknowledge(w1, c));
      }
    }
  }

  // --------------------------------------------------------------------- steps and restarts

  /** What is assumed of the cloud and the downloader. */
  ghost predicate EnvOK(e: StepEnv) {
    && Staged(e)
    && (e.check.Some? && e.check.value.TaskFound? ==> e.check.value.task != DEFAULT_TASK)
  }

  predicate Prepares(vt: VtState) {
    vt == NoTask || vt == Discovered || vt == ConsentPending || vt == DownloadPending || vt == Downloading
  }

  predicate AwaitsPermit(vt: VtState) {
    vt == Ready || vt == WaitingWindow || vt == PermitPending || vt == RetryPending
  }

  lemma PreparingStepKeeps(w: World, e: StepEnv)
    requires Inv(w) && EnvOK(e)
    requires Prepares(w.mem.vt)
    ensures Continues(w, Step(w, e)) && Inv(Step(w, e))
  {
    if w.mem.vt == NoTask || w.mem.vt == Discovered {
      CheckTaskKeeps(w, e);
    } else if w.mem.vt == ConsentPending {
      ConsentKeeps(w, e);
    } else {
      DownloadKeeps(w, e, 0, true);
    }
  }

  lemma PermitStepKeeps(w: World, e: StepEnv)
    requires Inv(w) && AwaitsPermit(w.mem.vt)
    ensures Continues(w, Step(w, e)) && Inv(Step(w, e))
  {
    var v := if w.mem.vt == RetryPending then w.(mem := w.mem.(vt := PermitPending)) else w;
    assert Step(w, e) == RequestPermit(v, e);
    RequestPermitKeeps(v, e);
  }

  lemma ExecutingStepKeeps(w: World, e: StepEnv)
    requires Inv(w) && AfterPermit(w.mem.vt)
    ensures Continues(w, Step(w, e)) && Inv(Step(w, e))
  {
    var v := if w.mem.vt == RollbackPending then w.(mem := w.mem.(ex := Rollback, vt := Executing)) else w;
    assert Step(w, e) == Execute(v, e);
    ExecuteKeeps(v, e);
  }

  lemma StepKeeps(w: World, e: StepEnv)
    requires Inv(w) && EnvOK(e)
    ensures Continues(w, Step(w, e)) && Inv(Step(w, e))
  {
    if Prepares(w.mem.vt) {
      PreparingStepKeeps(w, e);
    } else if AwaitsPermit(w.mem.vt) {
      PermitStepKeeps(w, e);
    } else if AfterPermit(w.mem.vt) {
      ExecutingStepKeeps(w, e);
    } else {
      assert Step(w, e) == w;
    }
  }

  /** A new object on the disk that is there. */
  function Restart(w: World): World {
    w.(mem := LoadFromStore(w.disk))
  }

  lemma RestartKeeps(w: World)
    requires Sound(w)
    ensures Inv(Restart(w))
  {
  }
}
