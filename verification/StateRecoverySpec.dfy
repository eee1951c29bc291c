/** What recovery does at start-up: the plan, the durable writes, and the crash theorems. */
module StateRecoverySpec {
  import opened Wrappers
  import opened Bytes
  import opened StateSerializer
  import opened StateCodec
  import opened DurableStore
  import opened StateStoreSpec

  datatype Action = NoAction | ReCollect | Resubmit | Retry | ReCollectFresh | Blocked

  datatype Plan = Plan(action: Action, job: Option<State>, reason: string)

  datatype RecoverEnv = RecoverEnv(
    sequence: ReadFault, lastSuccess: ReadFault, activeJob: ReadFault,
    again: ReadFault, dedupe: ReadFault, save: SaveFault, remove: SaveFault, now: I64)

  function Undisturbed(now: I64): RecoverEnv {
    RecoverEnv(ReadWorks, ReadWorks, ReadWorks, ReadWorks, ReadWorks, Works, Works, now)
  }

  /** The durable contents passed through, the flags afterwards, and the plan or the throw. */
  datatype Recovered = Recovered(disks: seq<Disk>, flags: Flags, result: Result<Plan>)

  // -------------------------------------------------------------------- reconciliation

  predicate Matches(last: State, job: State) {
    && last.LastSuccessState? && job.ActiveJobState?
    && last.reportId == job.reportId && last.snapshotSeq == job.snapshotSeq
  }

  predicate IsEntryOf(e: DedupeEntry, last: State)
    requires last.LastSuccessState?
  {
    e.snapshotSeq == last.snapshotSeq && e.reportId == last.reportId
  }

  predicate Holds(entries: seq<DedupeEntry>, last: State)
    requires last.LastSuccessState?
  {
    exists i :: 0 <= i < |entries| && IsEntryOf(entries[i], last)
  }

  function EntryFor(job: State, last: State, ttlMs: I64): (e: DedupeEntry)
    requires job.ActiveJobState? && last.LastSuccessState?
    ensures IsEntryOf(e, last)
  {
    DedupeEntry(job.requestId, last.reportId, last.snapshotSeq, last.fingerprints,
                Ascii(CollectionStatusName(last.overallResult)), last.completedAt,
                if ttlMs > 0 then ToI64(last.completedAt + ttlMs) else 0)
  }

  /** Eviction by count: the oldest go first, and a bound of 0 means no bound. */
  function KeepNewest(entries: seq<DedupeEntry>, max: nat): (kept: seq<DedupeEntry>)
    ensures |kept| <= |entries| && kept == entries[|entries| - |kept|..]
    ensures max > 0 ==> |kept| <= max
    ensures |kept| < |entries| ==> |kept| == max
    ensures entries != [] ==> kept != [] && kept[|kept| - 1] == entries[|entries| - 1]
  {
    if max > 0 && |entries| > max then entries[|entries| - max..] else entries
  }

  function Extended(window: State, job: State, last: State): (s: State)
    requires window.DedupeState? && job.ActiveJobState? && last.LastSuccessState?
    ensures s.DedupeState? && Holds(s.entries, last)
  {
    var kept := KeepNewest(window.entries + [EntryFor(job, last, window.ttlMs)], window.maxEntries);
    assert IsEntryOf(kept[|kept| - 1], last);
    window.(entries := kept)
  }

  datatype Reconciled = Reconciled(disks: seq<Disk>, flags: Flags, result: Result<bool>)

  /** Confirm against `last_success`, complete the window, and only then drop the job. */
  function Reconcile(c: Codec, d: Disk, fl: Flags, lim: Limits, job: State, e: RecoverEnv): Reconciled
    requires job.ActiveJobState?
  {
    var r := Loaded(LastSuccess, c, d, e.again);
    var last := if fl.lastSuccessAvailable then Present(r) else None;
    var fl1 := fl.(lastSuccessAvailable := fl.lastSuccessAvailable && r.Ok?);
    if last.None? || !Matches(last.value, job) then Reconciled([], fl1, Ok(false)) else
    var w := Loaded(Dedupe, c, d, e.dedupe);
    var window := if fl1.dedupeAvailable then Window(w, lim) else EmptyDedupe(lim);
    var fl2 := fl1.(dedupeAvailable := fl1.dedupeAvailable && w.Ok?);
    Complete(c, d, fl2, window, job, last.value, e)
  }

  function Complete(
    c: Codec, d: Disk, fl: Flags, window: State, job: State, last: State, e: RecoverEnv): Reconciled
    requires window.DedupeState? && job.ActiveJobState? && last.LastSuccessState?
  {
    if Holds(window.entries, last) then CleanUp(d, [], fl, e.remove) else
    var d1 := Saved(d, KeyOf(Dedupe), c.encode(Extended(window, job, last), e.now), e.save);
    var disks := if e.save.NotWritten? then [] else [d1];
    if !e.save.Works? then Reconciled(disks, fl, Err("dedupe save failed"))
    else CleanUp(d1, disks, fl.(dedupeAvailable := true), e.remove)
  }

  function CleanUp(d: Disk, disks: seq<Disk>, fl: Flags, fault: SaveFault): Reconciled {
    Reconciled(disks + if KeyOf(ActiveJob) in d && !fault.NotWritten? then [d - {KeyOf(ActiveJob)}] else [], fl,
               if fault.Works? then Ok(true) else Err("store remove failed"))
  }

  // -------------------------------------------------------------------------- the plan

  predicate RolledBack(sequence: Option<State>, last: Option<State>) {
    && sequence.Some? && sequence.value.SequenceState?
    && last.Some? && last.value.LastSuccessState?
    && last.value.snapshotSeq > sequence.value.highestAllocated
  }

  /** The plan by phase, for every phase but the one that is reconciled. */
  function PlanFor(job: State): Plan
    requires job.ActiveJobState?
  {
    match job.phase
    case Accepted => Plan(ReCollect, Some(job), "re-collect with original reportId")
    case Collecting => Plan(ReCollect, Some(job), "re-collect with original reportId")
    case Assembled => Resubmission(job)
    case SubmitPrepared => Resubmission(job)
    case SubmitUnknown => Plan(Retry, Some(job), "retry with original ids, result unknown")
    case RetryWaiting => Plan(Retry, Some(job), "retry with original ids, result unknown")
    case CompletedPendingCleanup => Plan(ReCollect, Some(job), "last_success mismatch, re-collect")
  }

  function Resubmission(job: State): Plan
    requires job.ActiveJobState?
  {
    if job.snapshotSeq == 0 then Plan(ReCollect, Some(job), "assembled but seq unallocated, re-collect")
    else Plan(Resubmit, Some(job), "resubmit with original idempotencyKey")
  }

  function Recover(c: Codec, d: Disk, fl: Flags, lim: Limits, e: RecoverEnv): Recovered {
    if fl.sequenceBlocked then Recovered([], fl, Ok(Plan(Blocked, None, "sequence blocked"))) else
    var sequence := Present(Loaded(Sequence, c, d, e.sequence));
    var r := Loaded(LastSuccess, c, d, e.lastSuccess);
    var last := if fl.lastSuccessAvailable then Present(r) else None;
    var fl1 := fl.(lastSuccessAvailable := fl.lastSuccessAvailable && r.Ok?);
    if RolledBack(sequence, last) then Recovered([], fl1, Ok(Plan(Blocked, None, "sequence rollback detected"))) else
    var j := Loaded(ActiveJob, c, d, e.activeJob);
    var fl2 := fl1.(activeJobCorrupted := fl1.activeJobCorrupted || j.Err?);
    match Present(j)
    case None =>
      Recovered([], fl2, Ok(if fl2.activeJobCorrupted then Plan(ReCollectFresh, None, "active_job corrupted")
                            else Plan(NoAction, None, "no active job")))
    case Some(job) => RecoverJob(c, d, fl2, lim, job, e)
  }

  function RecoverJob(c: Codec, d: Disk, fl: Flags, lim: Limits, job: State, e: RecoverEnv): Recovered
    requires job.ActiveJobState?
  {
    if !job.phase.CompletedPendingCleanup? then Recovered([], fl, Ok(PlanFor(job))) else
    var done := Reconcile(c, d, fl, lim, job, e);
    Recovered(done.disks, done.flags,
              if done.result.Err? then Err(done.result.error)
              else if done.result.value then Ok(Plan(NoAction, None, "completed and cleaned up"))
              else Ok(PlanFor(job)))
  }

  // ------------------------------------------------- the job is never dropped unconfirmed

  /** What must be durable when the job is gone. */
  ghost predicate Confirmed(c: Codec, d: Disk, x: Disk) {
    var job := Loaded(ActiveJob, c, d, ReadWorks);
    var last := Loaded(LastSuccess, c, x, ReadWorks);
    var window := Loaded(Dedupe, c, x, ReadWorks);
    && job.Ok? && job.value.Some? && job.value.value.phase.CompletedPendingCleanup?
    && last.Ok? && last.value.Some? && Matches(last.value.value, job.value.value)
    && window.Ok? && window.value.Some? && Holds(window.value.value.entries, last.value.value)
  }

  lemma FaultyReadIsRead(kind: Kind, c: Codec, d: Disk, fault: ReadFault)
    requires Loaded(kind, c, d, fault).Ok?
    ensures Loaded(kind, c, d, ReadWorks) == Loaded(kind, c, d, fault)
    ensures Loaded(kind, c, d, fault).value.Some? ==> KeyOf(kind) in d
  {
  }

  lemma LoadedFollowsKey(kind: Kind, c: Codec, d: Disk, x: Disk)
    requires KeyOf(kind) in d <==> KeyOf(kind) in x
    requires KeyOf(kind) in d ==> x[KeyOf(kind)] == d[KeyOf(kind)]
    ensures Loaded(kind, c, x, ReadWorks) == Loaded(kind, c, d, ReadWorks)
  {
    ReadFollowsKey(kind, c, d, x);
  }

  lemma SavedIsLoaded(c: Codec, d: Disk, s: State, now: I64)
    requires Sound(c) && WellFormed(s) && c.fits(s)
    ensures Loaded(KindOf(s), c, d[KeyOf(KindOf(s)) := Text(c.encode(s, now))], ReadWorks) == Ok(Some(s))
  {
    assert c.decode(KindOf(s), c.encode(s, now)) == Ok(s);
  }

  lemma LoadedIsWellFormed(kind: Kind, c: Codec, d: Disk, fault: ReadFault)
    requires Sound(c) && Loaded(kind, c, d, fault).Ok? && Loaded(kind, c, d, fault).value.Some?
    ensures WellFormed(Loaded(kind, c, d, fault).value.value)
  {
    assert c.decode(kind, d[KeyOf(kind)].bytes).Ok?;
  }

  lemma ExtendedIsWellFormed(window: State, job: State, last: State)
    requires window.DedupeState? && job.ActiveJobState? && last.LastSuccessState?
    requires WellFormed(window) && WellFormed(last)
    ensures WellFormed(Extended(window, job, last))
  {
    var all := window.entries + [EntryFor(job, last, window.ttlMs)];
    assert forall e :: e in all ==> ValidFingerprints(e.fingerprints);
  }
}
