/** What recovery does with the flags it is started with, and the flags it leaves, under every
    failure of a read, of the save and of the removal. */
module RecoveryFlags {
  import opened Wrappers
  import opened Bytes
  import opened StateSerializer
  import opened StateCodec
  import opened DurableStore
  import opened StateStoreSpec
  import opened StateRecoverySpec

  /** The last success as a load finds it: none when it is flagged as unavailable. */
  function LastFound(c: Codec, d: Disk, fl: Flags, fault: ReadFault): (last: Option<State>)
    ensures last.Some? ==> last.value.LastSuccessState?
  {
    var r := Loaded(LastSuccess, c, d, fault);
    if fl.lastSuccessAvailable && r.Ok? then r.value else None
  }

  function JobFound(c: Codec, d: Disk, fault: ReadFault): (job: Option<State>)
    ensures job.Some? ==> job.value.ActiveJobState?
  {
    var r := Loaded(ActiveJob, c, d, fault);
    if r.Ok? then r.value else None
  }

  function NumberFound(c: Codec, d: Disk, fault: ReadFault): Option<nat> {
    var r := Loaded(Sequence, c, d, fault);
    if r.Ok? && r.value.Some? && r.value.value.SequenceState? then Some(r.value.value.highestAllocated) else None
  }

  /** The sequence is flagged as blocked, or both records are found and the last success is
      ahead. */
  predicate Stops(c: Codec, d: Disk, fl: Flags, e: RecoverEnv) {
    || fl.sequenceBlocked
    || (var last, number := LastFound(c, d, fl, e.lastSuccess), NumberFound(c, d, e.sequence);
        last.Some? && number.Some? && last.value.snapshotSeq > number.value)
  }

  /** The flags after the two loads: what fails to load is flagged, and nothing is unflagged. */
  function Noted(c: Codec, d: Disk, fl: Flags, e: RecoverEnv): Flags {
    fl.(lastSuccessAvailable := fl.lastSuccessAvailable && Loaded(LastSuccess, c, d, e.lastSuccess).Ok?,
        activeJobCorrupted := fl.activeJobCorrupted || Loaded(ActiveJob, c, d, e.activeJob).Err?)
  }

  predicate Finished(job: Option<State>)
    requires job.Some? ==> job.value.ActiveJobState?
  {
    job.Some? && job.value.phase == CompletedPendingCleanup
  }

  predicate Names(last: Option<State>, job: State)
    requires job.ActiveJobState? && (last.Some? ==> last.value.LastSuccessState?)
  {
    last.Some? && last.value.reportId == job.reportId && last.value.snapshotSeq == job.snapshotSeq
  }

  lemma StopsIsRolledBack(c: Codec, d: Disk, fl: Flags, e: RecoverEnv)
    ensures var sequence := Present(Loaded(Sequence, c, d, e.sequence));
            var last := if fl.lastSuccessAvailable then Present(Loaded(LastSuccess, c, d, e.lastSuccess)) else None;
            Stops(c, d, fl, e) <==> fl.sequenceBlocked || RolledBack(sequence, last)
  {
  }

  lemma JobNeverBlocks(c: Codec, d: Disk, fl: Flags, lim: Limits, job: State, e: RecoverEnv)
    requires job.ActiveJobState?
    ensures var r := RecoverJob(c, d, fl, lim, job, e);
            && (r.result.Ok? ==> r.result.value.action != Blocked)
            && (job.phase != CompletedPendingCleanup ==>
                  r.result.Ok? && r.disks == [] && r.flags == fl && r.result.value.job == Some(job))
  {
  }

  /** A start that stops is blocked and writes nothing, and no other one is blocked. */
  lemma BlockedIff(c: Codec, d: Disk, fl: Flags, lim: Limits, e: RecoverEnv)
    ensures var r := Recover(c, d, fl, lim, e);
            && (Stops(c, d, fl, e) <==> r.result.Ok? && r.result.value.action == Blocked)
            && (Stops(c, d, fl, e) ==> r.disks == [])
  {
    StopsIsRolledBack(c, d, fl, e);
    var job := JobFound(c, d, e.activeJob);
    if job.Some? {
      JobNeverBlocks(c, d, Noted(c, d, fl, e), lim, job.value, e);
    }
  }

  /** Without a job a start does nothing, or collects afresh if the job is flagged as corrupt or
      does not load; with one that is not finished it writes nothing either. */
  lemma FlagsDecide(c: Codec, d: Disk, fl: Flags, lim: Limits, e: RecoverEnv)
    requires !Stops(c, d, fl, e)
    ensures var r, job := Recover(c, d, fl, lim, e), JobFound(c, d, e.activeJob);
            && (job.None? ==>
                  && r.result.Ok? && r.disks == [] && r.flags == Noted(c, d, fl, e)
                  && r.result.value.action
                     == if fl.activeJobCorrupted || Loaded(ActiveJob, c, d, e.activeJob).Err? then ReCollectFresh else NoAction)
            && (job.Some? && !Finished(job) ==>
                  r.result.Ok? && r.disks == [] && r.flags == Noted(c, d, fl, e) && r.result.value.job == job)
  {
    StopsIsRolledBack(c, d, fl, e);
    var job := JobFound(c, d, e.activeJob);
    if job.Some? {
      JobNeverBlocks(c, d, Noted(c, d, fl, e), lim, job.value, e);
    }
  }

  /** What a finished job leads to: it is collected again, and nothing written, unless the last
      success is found, at both loads, and names it. */
  lemma FinishedDecides(c: Codec, d: Disk, fl: Flags, lim: Limits, e: RecoverEnv)
    requires !Stops(c, d, fl, e) && Finished(JobFound(c, d, e.activeJob))
    ensures var r, job := Recover(c, d, fl, lim, e), JobFound(c, d, e.activeJob).value;
            var again := Noted(c, d, fl, e);
            !Names(LastFound(c, d, again, e.again), job) ==>
              r.result.Ok? && r.result.value.action == ReCollect && r.result.value.job == Some(job) && r.disks == []
  {
  }

  /** The window that can be used names the last success already. */
  predicate Known(c: Codec, d: Disk, fl: Flags, fault: ReadFault, last: State)
    requires last.LastSuccessState?
  {
    var read := Loaded(Dedupe, c, d, fault);
    && fl.dedupeAvailable && read.Ok? && read.value.Some? && read.value.value.DedupeState?
    && exists i :: 0 <= i < |read.value.value.entries|
         && read.value.value.entries[i].reportId == last.reportId
         && read.value.value.entries[i].snapshotSeq == last.snapshotSeq
  }

  lemma KnownIsHeld(c: Codec, d: Disk, fl: Flags, lim: Limits, fault: ReadFault, last: State)
    requires last.LastSuccessState?
    ensures var window := if fl.dedupeAvailable then Window(Loaded(Dedupe, c, d, fault), lim) else EmptyDedupe(lim);
            Holds(window.entries, last) <==> Known(c, d, fl, fault, last)
  {
  }

  lemma ConfirmedCompletes(c: Codec, d: Disk, fl: Flags, lim: Limits, job: State, e: RecoverEnv)
    requires job.ActiveJobState? && Names(LastFound(c, d, fl, e.again), job)
    ensures var last, read := LastFound(c, d, fl, e.again).value, Loaded(Dedupe, c, d, e.dedupe);
            var window := if fl.dedupeAvailable then Window(read, lim) else EmptyDedupe(lim);
            Reconcile(c, d, fl, lim, job, e)
            == Complete(c, d, fl.(dedupeAvailable := fl.dedupeAvailable && read.Ok?), window, job, last, e)
  {
  }

  lemma FinishedReconciles(c: Codec, d: Disk, fl: Flags, lim: Limits, e: RecoverEnv)
    requires !Stops(c, d, fl, e) && Finished(JobFound(c, d, e.activeJob))
    ensures Recover(c, d, fl, lim, e)
         == RecoverJob(c, d, Noted(c, d, fl, e), lim, JobFound(c, d, e.activeJob).value, e)
  {
    StopsIsRolledBack(c, d, fl, e);
  }

  /** For a finished job that is confirmed: the window is flagged as available exactly if it was
      and could be read, or it has been saved now; a save or removal that fails throws. */
  lemma ConfirmedFlags(c: Codec, d: Disk, fl: Flags, lim: Limits, e: RecoverEnv)
    requires !Stops(c, d, fl, e) && Finished(JobFound(c, d, e.activeJob))
    requires Names(LastFound(c, d, Noted(c, d, fl, e), e.again), JobFound(c, d, e.activeJob).value)
    ensures var r, last := Recover(c, d, fl, lim, e), LastFound(c, d, Noted(c, d, fl, e), e.again).value;
            var usable := fl.dedupeAvailable && Loaded(Dedupe, c, d, e.dedupe).Ok?;
            var known := Known(c, d, fl, e.dedupe, last);
            && (r.result.Ok? <==> (known || e.save.Works?) && e.remove.Works?)
            && (r.result.Ok? ==> r.result.value.action == NoAction && r.result.value.job == None)
            && (r.flags.dedupeAvailable <==> usable || (!known && e.save.Works?))
            && r.flags == Noted(c, d, fl, e).(dedupeAvailable := r.flags.dedupeAvailable)
  {
    var noted := Noted(c, d, fl, e);
    FinishedReconciles(c, d, fl, lim, e);
    ConfirmedCompletes(c, d, noted, lim, JobFound(c, d, e.activeJob).value, e);
    KnownIsHeld(c, d, fl, lim, e.dedupe, LastFound(c, d, noted, e.again).value);
  }
}
