/** What a start decides, told on the records it finds; and that no start is blocked by a number
    that was handed out. */
module RecoveryMeaning {
  import opened CrashSchedules
  import opened Wrappers
  import opened Bytes
  import opened StateSerializer
  import opened StateCodec
  import opened DurableStore
  import opened StateStoreSpec
  import opened StateRecoverySpec
  import opened RecoveryCrashes
  import History = SequenceHistory

  function Stored(kind: Kind, c: Codec, d: Disk): (r: Result<Option<State>>)
    ensures r.Ok? && r.value.Some? ==> KindOf(r.value.value) == kind
  {
    Loaded(kind, c, d, ReadWorks)
  }

  // --------------------------------------------------------------------- blocked or not

  /** Both records load, and the last success carries a number above the highest one that was
      ever made durable. */
  predicate AheadOfSequence(c: Codec, d: Disk) {
    && Stored(Sequence, c, d).Ok? && Stored(Sequence, c, d).value.Some?
    && Stored(LastSuccess, c, d).Ok? && Stored(LastSuccess, c, d).value.Some?
    && History.Highest(c, d) < Stored(LastSuccess, c, d).value.value.snapshotSeq
  }

  lemma HighestIsStored(c: Codec, d: Disk)
    requires Sound(c) && Stored(Sequence, c, d).Ok?
    ensures History.Highest(c, d)
         == if Stored(Sequence, c, d).value.Some? then Stored(Sequence, c, d).value.value.highestAllocated else 0
    ensures History.SequenceOn(c, d) == Stored(Sequence, c, d)
  {
    LoadedIsRead(Sequence, c, d, ReadWorks);
  }

  /** A start without faults is blocked if and only if the sequence does not load, or the last
      success is ahead of it. */
  lemma BlockedIff(c: Codec, d: Disk, lim: Limits, now: I64)
    requires Sound(c) && Roomy(c, ViewOf(c, d), lim)
    ensures var b := Boot(c, d, lim, CleanStart(now));
            && b.result.Ok?
            && (b.result.value.action == Blocked <==> Stored(Sequence, c, d).Err? || AheadOfSequence(c, d))
  {
    BootDecides(c, d, lim, CleanStart(now));
    BlockedOnDisk(c, d);
    BlockedByView(ViewOf(c, d));
  }

  lemma BlockedOnDisk(c: Codec, d: Disk)
    requires Sound(c)
    ensures IsBlocked(ViewOf(c, d)) <==> Stored(Sequence, c, d).Err? || AheadOfSequence(c, d)
  {
    if Stored(Sequence, c, d).Ok? {
      HighestIsStored(c, d);
    }
  }

  lemma BlockedByView(v: View)
    requires Typed(v)
    ensures ActionOf(v).0 == Blocked <==> IsBlocked(v)
  {
  }

  /** Over every history of opens, allocations, faults and crashes that leaves the sequence
      readable: a last success that carries a number handed out blocks no start. */
  lemma ReturnedNumberNeverBlocks(
    c: Codec, disk: Disk, ops: seq<History.Op>, lim: Limits, t: Start)
    requires History.SoundForSequences(c)
    requires History.SequenceOn(c, History.Run(c, History.System(disk, None, []), ops).disk).Ok?
    requires var s := History.Run(c, History.System(disk, None, []), ops);
             && Roomy(c, ViewOf(c, s.disk), lim)
             && Stored(LastSuccess, c, s.disk).Ok? && Stored(LastSuccess, c, s.disk).value.Some?
             && Stored(LastSuccess, c, s.disk).value.value.snapshotSeq in s.returned
    ensures var b := Boot(c, History.Run(c, History.System(disk, None, []), ops).disk, lim, t);
            b.result.Ok? ==> b.result.value.action != Blocked
  {
    var s := History.Run(c, History.System(disk, None, []), ops);
    History.NumbersNeverRepeat(c, History.System(disk, None, []), ops);
    LoadedIsRead(Sequence, c, s.disk, ReadWorks);
    HighestIsStored(c, s.disk);
    var number := Stored(LastSuccess, c, s.disk).value.value.snapshotSeq;
    var i :| 0 <= i < |s.returned| && s.returned[i] == number;
    assert number <= History.Highest(c, s.disk);
    BootDecides(c, s.disk, lim, t);
    BlockedByView(ViewOf(c, s.disk));
  }

  // ------------------------------------------------------------------------ the job found

  predicate Unsent(phase: JobPhase) {
    phase == Accepted || phase == Collecting
  }

  predicate ReadyToSend(phase: JobPhase) {
    phase == Assembled || phase == SubmitPrepared
  }

  predicate MaybeSent(phase: JobPhase) {
    phase == SubmitUnknown || phase == RetryWaiting
  }

  /** `last_success` is there and names the report and the number of the job. */
  predicate ConfirmedBy(job: State, last: Result<Option<State>>)
    requires job.ActiveJobState? && (last.Ok? && last.value.Some? ==> last.value.value.LastSuccessState?)
  {
    && last.Ok? && last.value.Some?
    && last.value.value.reportId == job.reportId && last.value.value.snapshotSeq == job.snapshotSeq
  }

  /** What a start that is not blocked does about the job it finds: it goes on with that job,
      and collects, sends or retries by its phase; only a confirmed one is done with. */
  predicate ActsOn(job: State, last: Result<Option<State>>, action: Action, kept: Option<State>)
    requires job.ActiveJobState? && (last.Ok? && last.value.Some? ==> last.value.value.LastSuccessState?)
  {
    var finished := job.phase == CompletedPendingCleanup;
    && (action == NoAction <==> finished && ConfirmedBy(job, last))
    && (action == Resubmit <==> ReadyToSend(job.phase) && job.snapshotSeq != 0)
    && (action == Retry <==> MaybeSent(job.phase))
    && (action == ReCollect <==>
          || Unsent(job.phase)
          || (ReadyToSend(job.phase) && job.snapshotSeq == 0)
          || (finished && !ConfirmedBy(job, last)))
    && kept == (if action == NoAction then None else Some(job))
  }

  /** What a start without faults decides when it is not blocked: nothing without a job, a fresh
      collection for a job that does not load, and else what the phase of the job asks for. */
  lemma StartDecides(c: Codec, d: Disk, lim: Limits, now: I64)
    requires Sound(c) && Roomy(c, ViewOf(c, d), lim)
    requires Stored(Sequence, c, d).Ok? && !AheadOfSequence(c, d)
    ensures var b, job := Boot(c, d, lim, CleanStart(now)), Stored(ActiveJob, c, d);
            && b.result.Ok?
            && (job.Err? ==> b.result.value.action == ReCollectFresh && b.result.value.job == None)
            && (job == Ok(None) ==> b.result.value.action == NoAction && b.result.value.job == None)
            && (job.Ok? && job.value.Some? ==>
                  ActsOn(job.value.value, Stored(LastSuccess, c, d), b.result.value.action, b.result.value.job))
  {
    BootDecides(c, d, lim, CleanStart(now));
    HighestIsStored(c, d);
    var v := ViewOf(c, d);
    if Present(v.job).Some? {
      PhaseDecides(v);
    }
  }

  lemma PhaseDecides(v: View)
    requires Typed(v) && !IsBlocked(v) && v.job.Ok? && v.job.value.Some?
    ensures ActsOn(v.job.value.value, v.last, ActionOf(v).0, ActionOf(v).1)
  {
  }

  // --------------------------------------------------------------------- the window after it

  /** The entry of a confirmed report: its request, its ids, its result, and when it lapses:
      so long after its completion as entries live, or never. */
  predicate Records(e: DedupeEntry, job: State, last: State, ttlMs: I64)
    requires job.ActiveJobState? && last.LastSuccessState?
  {
    && e.requestId == job.requestId && e.reportId == last.reportId && e.snapshotSeq == last.snapshotSeq
    && e.fingerprints == last.fingerprints && e.completedAt == last.completedAt
    && Chars(e.overallResult) == (match last.overallResult case ALL_OK => "ALL_OK" case PARTIAL => "PARTIAL" case FAILED => "FAILED")
    && (ttlMs <= 0 ==> e.expiresAt == 0)
    && (ttlMs > 0 && last.completedAt + ttlMs < 0x8000_0000_0000_0000 ==> e.expiresAt == last.completedAt + ttlMs)
  }

  predicate AlreadyIn(entries: seq<DedupeEntry>, last: State)
    requires last.LastSuccessState?
  {
    exists i :: 0 <= i < |entries| && entries[i].reportId == last.reportId && entries[i].snapshotSeq == last.snapshotSeq
  }

  function EntriesOf(window: Result<Option<State>>): seq<DedupeEntry>
    requires window.Ok? && window.value.Some? ==> window.value.value.DedupeState?
  {
    if window.Ok? && window.value.Some? then window.value.value.entries else []
  }

  /** The window has gained the entry of the report at its end; it has lost as many of the oldest
      as the bound asks for, and a bound of 0 asks for none. */
  predicate Gains(before: seq<DedupeEntry>, w: State, job: State, last: State, lim: Limits)
    requires job.ActiveJobState? && last.LastSuccessState?
  {
    && w.DedupeState? && w.maxEntries == lim.maxEntries && w.ttlMs == lim.ttlMs
    && var n := |w.entries|;
       && n == (if lim.maxEntries == 0 || |before| < lim.maxEntries then |before| + 1 else lim.maxEntries)
       && 0 < n <= |before| + 1
       && w.entries[..n - 1] == before[|before| + 1 - n..]
       && Records(w.entries[n - 1], job, last, lim.ttlMs)
  }

  lemma EntryRecords(job: State, last: State, ttlMs: I64)
    requires job.ActiveJobState? && last.LastSuccessState?
    ensures Records(EntryFor(job, last, ttlMs), job, last, ttlMs)
  {
    CharsOfAscii(CollectionStatusName(last.overallResult));
  }

  lemma ExtendedGains(window: State, job: State, last: State, lim: Limits)
    requires window.DedupeState? && window.maxEntries == lim.maxEntries && window.ttlMs == lim.ttlMs
    requires job.ActiveJobState? && last.LastSuccessState?
    ensures Gains(window.entries, Extended(window, job, last), job, last, lim)
  {
    WindowKeepsNewest(window, job, last);
    EntryRecords(job, last, lim.ttlMs);
    SuffixOfJoin(window.entries, EntryFor(job, last, window.ttlMs), |Extended(window, job, last).entries|);
  }

  lemma SuffixOfJoin<T>(xs: seq<T>, x: T, n: nat)
    requires 0 < n <= |xs| + 1
    ensures (xs + [x])[|xs| + 1 - n..] == xs[|xs| + 1 - n..] + [x]
  {
  }

  /** After a start without faults that finds a confirmed job: the job is gone, the window holds
      the report, and the other records are as they were. */
  lemma ConfirmedJobIsRecorded(c: Codec, d: Disk, lim: Limits, now: I64)
    requires Sound(c) && Roomy(c, ViewOf(c, d), lim)
    requires Stored(Sequence, c, d).Ok? && !AheadOfSequence(c, d)
    requires var job := Stored(ActiveJob, c, d);
             && job.Ok? && job.value.Some? && job.value.value.phase == CompletedPendingCleanup
             && ConfirmedBy(job.value.value, Stored(LastSuccess, c, d))
    ensures var x := Last(d, Boot(c, d, lim, CleanStart(now)).disks);
            var job, last := Stored(ActiveJob, c, d).value.value, Stored(LastSuccess, c, d).value.value;
            var before, after := EntriesOf(Stored(Dedupe, c, d)), Stored(Dedupe, c, x);
            && Stored(ActiveJob, c, x) == Ok(None)
            && Stored(LastSuccess, c, x) == Stored(LastSuccess, c, d) && Stored(Sequence, c, x) == Stored(Sequence, c, d)
            && (AlreadyIn(before, last) ==> after == Stored(Dedupe, c, d))
            && (!AlreadyIn(before, last) ==> after.Ok? && after.value.Some? && Gains(before, after.value.value, job, last, lim))
  {
    BootDecides(c, d, lim, CleanStart(now));
    HighestIsStored(c, d);
    FinishedRecords(ViewOf(c, d), lim);
  }

  lemma FinishedRecords(v: View, lim: Limits)
    requires Typed(v) && !IsBlocked(v) && v.job.Ok? && v.job.value.Some?
    requires v.job.value.value.phase == CompletedPendingCleanup && ConfirmedBy(v.job.value.value, v.last)
    ensures var f := Finished(v, lim);
            && f.job == Ok(None) && f.last == v.last && f.sequence == v.sequence
            && (AlreadyIn(EntriesOf(v.window), v.last.value.value) ==> f.window == v.window)
            && (!AlreadyIn(EntriesOf(v.window), v.last.value.value) ==>
                  && f.window.Ok? && f.window.value.Some?
                  && Gains(EntriesOf(v.window), f.window.value.value, v.job.value.value, v.last.value.value, lim))
  {
    var window, last := Window(v.window, lim), v.last.value.value;
    assert window.entries == EntriesOf(v.window);
    assert Holds(window.entries, last) <==> AlreadyIn(window.entries, last);
    HalfwayWindow(v, lim);
    if !Holds(window.entries, last) {
      ExtendedGains(window, v.job.value.value, last, lim);
    }
  }

  /** Any other start without faults leaves every record as it was. */
  lemma OtherStartsKeepRecords(c: Codec, d: Disk, lim: Limits, now: I64, kind: Kind)
    requires Sound(c) && Roomy(c, ViewOf(c, d), lim)
    requires var b := Boot(c, d, lim, CleanStart(now));
             b.result.Ok? && (b.result.value.action == NoAction ==> Stored(ActiveJob, c, d) == Ok(None))
    ensures Stored(kind, c, Last(d, Boot(c, d, lim, CleanStart(now)).disks)) == Stored(kind, c, d)
  {
    BootDecides(c, d, lim, CleanStart(now));
  }
}
