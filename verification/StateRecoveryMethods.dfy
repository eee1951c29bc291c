/** The recovery as written, over the store object. */
module StateRecoveryMethods {
  import opened Wrappers
  import opened Bytes
  import opened StateSerializer
  import opened StateCodec
  import opened CrashSchedules
  import opened StateStoreClass
  import opened StateRecoverySpec

  method ContainsEntry(entries: seq<DedupeEntry>, last: State) returns (found: bool)
    requires last.LastSuccessState?
    ensures found == Holds(entries, last)
  {
    found := false;
    for i := 0 to |entries|
      invariant !Holds(entries[..i], last)
    {
      if IsEntryOf(entries[i], last) {
        return true;
      }
    }
    assert entries[..|entries|] == entries;
  }

  /** Drops from the front while there are too many. */
  method Evict(entries: seq<DedupeEntry>, max: U32) returns (kept: seq<DedupeEntry>)
    ensures kept == KeepNewest(entries, max)
  {
    kept := entries;
    while |kept| > max && max > 0
      invariant |kept| <= |entries| && kept == entries[|entries| - |kept|..]
      invariant kept == entries || |kept| >= max > 0
    {
      kept := kept[1..];
    }
  }

  /** Complete the window when the entry is missing, then drop the job. */
  method CompleteJob(s: FotaStateStore, c: Codec, window: State, job: State, last: State, e: RecoverEnv)
    returns (r: Result<bool>)
    requires s.store.Valid() && window.DedupeState? && job.ActiveJobState? && last.LastSuccessState?
    modifies s`dedupeAvailable, s.store
    ensures s.store.Valid()
    ensures var x := Complete(c, old(s.store.data), old(s.FlagsNow()), window, job, last, e);
            && r == x.result && s.FlagsNow() == x.flags
            && s.store.trace == old(s.store.trace) + x.disks
            && s.store.data == Last(old(s.store.data), x.disks)
  {
    var found := ContainsEntry(window.entries, last);
    if !found {
      var kept := Evict(window.entries + [EntryFor(job, last, window.ttlMs)], window.maxEntries);
      var saved := s.SaveDedupe(c, window.(entries := kept), e.now, e.save);
      if saved.Err? {
        return Err(saved.error);
      }
    }
    var removed := s.RemoveActiveJob(e.remove);
    if removed.Err? {
      return Err(removed.error);
    }
    r := Ok(true);
  }

  method ReconcileCompleted(s: FotaStateStore, c: Codec, job: State, e: RecoverEnv) returns (r: Result<bool>)
    requires s.store.Valid() && job.ActiveJobState?
    modifies s`lastSuccessAvailable, s`dedupeAvailable, s.store
    ensures s.store.Valid()
    ensures var x := Reconcile(c, old(s.store.data), old(s.FlagsNow()), s.Limits(), job, e);
            && r == x.result && s.FlagsNow() == x.flags
            && s.store.trace == old(s.store.trace) + x.disks
            && s.store.data == Last(old(s.store.data), x.disks)
  {
    var last := s.LoadLastSuccess(c, e.again);
    if last.None? {
      return Ok(false);
    }
    if last.value.reportId != job.reportId || last.value.snapshotSeq != job.snapshotSeq {
      return Ok(false);
    }
    var window := s.LoadDedupe(c, e.dedupe);
    r := CompleteJob(s, c, window, job, last.value, e);
  }

  /** The plan by phase of the job found. */
  method ResumeJob(s: FotaStateStore, c: Codec, job: State, e: RecoverEnv) returns (r: Result<Plan>)
    requires s.store.Valid() && job.ActiveJobState?
    modifies s`lastSuccessAvailable, s`dedupeAvailable, s.store
    ensures s.store.Valid()
    ensures var x := RecoverJob(c, old(s.store.data), old(s.FlagsNow()), s.Limits(), job, e);
            && r == x.result && s.FlagsNow() == x.flags
            && s.store.trace == old(s.store.trace) + x.disks
            && s.store.data == Last(old(s.store.data), x.disks)
  {
    match job.phase
    case Accepted => r := Ok(Plan(ReCollect, Some(job), "re-collect with original reportId"));
    case Collecting => r := Ok(Plan(ReCollect, Some(job), "re-collect with original reportId"));
    case Assembled => r := Ok(Resubmission(job));
    case SubmitPrepared => r := Ok(Resubmission(job));
    case SubmitUnknown => r := Ok(Plan(Retry, Some(job), "retry with original ids, result unknown"));
    case RetryWaiting => r := Ok(Plan(Retry, Some(job), "retry with original ids, result unknown"));
    case CompletedPendingCleanup =>
      var done := ReconcileCompleted(s, c, job, e);
      if done.Err? {
        return Err(done.error);
      }
      if done.value {
        r := Ok(Plan(NoAction, None, "completed and cleaned up"));
      } else {
        r := Ok(Plan(ReCollect, Some(job), "last_success mismatch, re-collect"));
      }
  }

  method RecoverStore(s: FotaStateStore, c: Codec, e: RecoverEnv) returns (r: Result<Plan>)
    requires s.store.Valid()
    modifies s`lastSuccessAvailable, s`dedupeAvailable, s`activeJobCorrupted, s.store
    ensures s.store.Valid()
    ensures var x := Recover(c, old(s.store.data), old(s.FlagsNow()), s.Limits(), e);
            && r == x.result && s.FlagsNow() == x.flags
            && s.store.trace == old(s.store.trace) + x.disks
            && s.store.data == Last(old(s.store.data), x.disks)
  {
    if s.sequenceBlocked {
      return Ok(Plan(Blocked, None, "sequence blocked"));
    }
    var sequence := s.LoadSequence(c, e.sequence);
    var last := s.LoadLastSuccess(c, e.lastSuccess);
    if sequence.Some? && last.Some? && last.value.snapshotSeq > sequence.value.highestAllocated {
      return Ok(Plan(Blocked, None, "sequence rollback detected"));
    }
    var job := s.LoadActiveJob(c, e.activeJob);
    if job.None? {
      if s.activeJobCorrupted {
        return Ok(Plan(ReCollectFresh, None, "active_job corrupted"));
      }
      return Ok(Plan(NoAction, None, "no active job"));
    }
    r := ResumeJob(s, c, job.value, e);
  }
}
