/** Recovery against crashes: at which disks it can stop, and what running it again does. */
module RecoveryCrashes {
  import opened CrashSchedules
  import opened Wrappers
  import opened Bytes
  import opened StateSerializer
  import opened StateCodec
  import opened DurableStore
  import opened StateStoreSpec
  import opened StateRecoverySpec

  /** What the four records decode to. */
  datatype View = View(
    sequence: Result<Option<State>>, last: Result<Option<State>>,
    window: Result<Option<State>>, job: Result<Option<State>>)

  predicate Typed(v: View) {
    && (Present(v.window).Some? ==> Present(v.window).value.DedupeState?)
    && (Present(v.job).Some? ==> Present(v.job).value.ActiveJobState?)
    && (Present(v.last).Some? ==> Present(v.last).value.LastSuccessState?)
  }

  function ViewOf(c: Codec, d: Disk): (v: View)
    ensures Typed(v)
  {
    View(Loaded(Sequence, c, d, ReadWorks), Loaded(LastSuccess, c, d, ReadWorks),
         Loaded(Dedupe, c, d, ReadWorks), Loaded(ActiveJob, c, d, ReadWorks))
  }

  predicate Fitting(c: Codec, r: Result<Option<State>>) {
    Present(r).Some? ==> c.fits(Present(r).value)
  }

  /** Everything stored, and every window recovery may write, fits the envelope. */
  predicate Roomy(c: Codec, v: View, lim: Limits)
    requires Typed(v)
  {
    && Fitting(c, v.sequence) && Fitting(c, v.last) && Fitting(c, v.window) && Fitting(c, v.job)
    && (Present(v.job).Some? && Present(v.last).Some? ==>
          && ExtensionFits(c, Window(v.window, lim), Present(v.job).value, Present(v.last).value)
          && ExtensionFits(c, EmptyDedupe(lim), Present(v.job).value, Present(v.last).value))
  }

  lemma SavingMeans(c: Codec, d: Disk, s: State, now: I64)
    requires Sound(c) && WellFormed(s) && c.fits(s) && s.DedupeState?
    ensures ViewOf(c, d[KeyOf(Dedupe) := Text(c.encode(s, now))]) == ViewOf(c, d).(window := Ok(Some(s)))
  {
    var x := d[KeyOf(Dedupe) := Text(c.encode(s, now))];
    SavedIsLoaded(c, d, s, now);
    KeysAreDistinct(Dedupe, Sequence);
    KeysAreDistinct(Dedupe, LastSuccess);
    KeysAreDistinct(Dedupe, ActiveJob);
    LoadedFollowsKey(Sequence, c, d, x);
    LoadedFollowsKey(LastSuccess, c, d, x);
    LoadedFollowsKey(ActiveJob, c, d, x);
  }

  lemma DroppingMeans(c: Codec, d: Disk)
    ensures ViewOf(c, d - {KeyOf(ActiveJob)}) == ViewOf(c, d).(job := Ok(None))
  {
    var x := d - {KeyOf(ActiveJob)};
    KeysAreDistinct(ActiveJob, Sequence);
    KeysAreDistinct(ActiveJob, LastSuccess);
    KeysAreDistinct(ActiveJob, Dedupe);
    LoadedFollowsKey(Sequence, c, d, x);
    LoadedFollowsKey(LastSuccess, c, d, x);
    LoadedFollowsKey(Dedupe, c, d, x);
  }
  // ------------------------------------------------------- no job dropped unconfirmed

  function UpToDate(c: Codec, d: Disk, window: State, job: State, last: State, now: I64): Disk
    requires window.DedupeState? && job.ActiveJobState? && last.LastSuccessState?
  {
    if Holds(window.entries, last) then d
    else d[KeyOf(Dedupe) := Text(c.encode(Extended(window, job, last), now))]
  }

  /** If the window has to be extended, the extended one is short enough to be stored. */
  predicate ExtensionFits(c: Codec, window: State, job: State, last: State)
    requires window.DedupeState? && job.ActiveJobState? && last.LastSuccessState?
  {
    Holds(window.entries, last) || c.fits(Extended(window, job, last))
  }

  lemma UpToDateMeans(c: Codec, d: Disk, window: State, job: State, last: State, now: I64)
    requires Sound(c) && job.ActiveJobState? && window.DedupeState? && last.LastSuccessState?
    requires WellFormed(window) && WellFormed(last) && ExtensionFits(c, window, job, last)
    ensures ViewOf(c, UpToDate(c, d, window, job, last, now))
         == if Holds(window.entries, last) then ViewOf(c, d)
            else ViewOf(c, d).(window := Ok(Some(Extended(window, job, last))))
  {
    if !Holds(window.entries, last) {
      ExtendedIsWellFormed(window, job, last);
      SavingMeans(c, d, Extended(window, job, last), now);
    }
  }

  lemma LoadedJobIsStored(c: Codec, d: Disk)
    requires Present(ViewOf(c, d).job).Some?
    ensures KeyOf(ActiveJob) in d
  {
  }

  lemma DroppedAfterUpToDate(
    c: Codec, d: Disk, fl: Flags, window: State, job: State, last: State, e: RecoverEnv, x: Disk)
    requires job.ActiveJobState? && window.DedupeState? && last.LastSuccessState? && KeyOf(ActiveJob) in d
    requires x in Complete(c, d, fl, window, job, last, e).disks && KeyOf(ActiveJob) !in x
    ensures x == UpToDate(c, d, window, job, last, e.now) - {KeyOf(ActiveJob)}
  {
    SavedKeepsJob(d, d[KeyOf(Dedupe) := Text(c.encode(Extended(window, job, last), e.now))],
                  c.encode(Extended(window, job, last), e.now));
  }

  lemma CompleteConfirms(
    c: Codec, d: Disk, fl: Flags, window: State, job: State, last: State, e: RecoverEnv, i: nat)
    requires Sound(c) && job.ActiveJobState? && window.DedupeState? && last.LastSuccessState?
    requires job.phase.CompletedPendingCleanup? && Matches(last, job) && WellFormed(window) && WellFormed(last)
    requires ExtensionFits(c, window, job, last)
    requires ViewOf(c, d).job == Ok(Some(job)) && ViewOf(c, d).last == Ok(Some(last))
    requires Holds(window.entries, last) ==>
               Present(ViewOf(c, d).window).Some? && Holds(Present(ViewOf(c, d).window).value.entries, last)
    requires i < |Complete(c, d, fl, window, job, last, e).disks|
    ensures KeyOf(ActiveJob) !in Complete(c, d, fl, window, job, last, e).disks[i]
            ==> Confirmed(c, d, Complete(c, d, fl, window, job, last, e).disks[i])
  {
    var x := Complete(c, d, fl, window, job, last, e).disks[i];
    if KeyOf(ActiveJob) !in x {
      LoadedJobIsStored(c, d);
      DroppedAfterUpToDate(c, d, fl, window, job, last, e, x);
      UpToDateMeans(c, d, window, job, last, e.now);
      DroppingMeans(c, UpToDate(c, d, window, job, last, e.now));
    }
  }

  lemma SavedKeepsJob(d: Disk, d1: Disk, bytes: ByteString)
    requires d1 == d[KeyOf(Dedupe) := Text(bytes)]
    ensures KeyOf(ActiveJob) in d1 <==> KeyOf(ActiveJob) in d
  {
    KeysAreDistinct(Dedupe, ActiveJob);
  }

  lemma ReconcileConfirms(c: Codec, d: Disk, fl: Flags, lim: Limits, job: State, e: RecoverEnv, i: nat)
    requires Sound(c) && job.ActiveJobState? && job.phase.CompletedPendingCleanup?
    requires Loaded(ActiveJob, c, d, ReadWorks) == Ok(Some(job)) && Roomy(c, ViewOf(c, d), lim)
    requires i < |Reconcile(c, d, fl, lim, job, e).disks|
    ensures KeyOf(ActiveJob) !in Reconcile(c, d, fl, lim, job, e).disks[i]
            ==> Confirmed(c, d, Reconcile(c, d, fl, lim, job, e).disks[i])
  {
    FaultyReadIsRead(LastSuccess, c, d, e.again);
    LoadedIsWellFormed(LastSuccess, c, d, e.again);
    WindowIsWellFormed(c, d, fl.dedupeAvailable, lim, e.dedupe);
    var last := Loaded(LastSuccess, c, d, e.again).value.value;
    var w := Loaded(Dedupe, c, d, e.dedupe);
    if w.Ok? {
      FaultyReadIsRead(Dedupe, c, d, e.dedupe);
    }
    var window := if fl.dedupeAvailable then Window(w, lim) else EmptyDedupe(lim);
    CompleteConfirms(c, d, fl.(dedupeAvailable := fl.dedupeAvailable && w.Ok?), window, job, last, e, i);
  }

  lemma WindowIsWellFormed(c: Codec, d: Disk, available: bool, lim: Limits, fault: ReadFault)
    requires Sound(c)
    ensures WellFormed(if available then Window(Loaded(Dedupe, c, d, fault), lim) else EmptyDedupe(lim))
  {
    var w := Loaded(Dedupe, c, d, fault);
    if w.Ok? && w.value.Some? {
      LoadedIsWellFormed(Dedupe, c, d, fault);
    }
  }

  /** Whatever fails and wherever it stops, `active_job` is gone only when it was pending
      clean-up, `last_success` matches its report id and sequence number, and the stored
      window decodes and holds that entry. */
  lemma JobIsDroppedOnlyWhenConfirmed(c: Codec, d: Disk, fl: Flags, lim: Limits, e: RecoverEnv, i: nat)
    requires Sound(c) && Roomy(c, ViewOf(c, d), lim)
    requires i < |Recover(c, d, fl, lim, e).disks|
    ensures KeyOf(ActiveJob) !in Recover(c, d, fl, lim, e).disks[i]
            ==> Confirmed(c, d, Recover(c, d, fl, lim, e).disks[i])
  {
    FaultyReadIsRead(ActiveJob, c, d, e.activeJob);
    var job := Loaded(ActiveJob, c, d, e.activeJob).value.value;
    var r := Loaded(LastSuccess, c, d, e.lastSuccess);
    var fl2 := fl.(lastSuccessAvailable := fl.lastSuccessAvailable && r.Ok?);
    ReconcileConfirms(c, d, fl2, lim, job, e, i);
  }

  // ---------------------------------------------------------------- recovery by meaning

  function FlagsFor(v: View): Flags {
    Flags(v.sequence.Err?, v.last.Ok?, v.window.Ok?, v.job.Err?)
  }

  predicate IsBlocked(v: View) {
    v.sequence.Err? || RolledBack(Present(v.sequence), Present(v.last))
  }

  /** A finished job that `last_success` confirms. */
  predicate Completing(v: View)
    requires Typed(v)
  {
    && !IsBlocked(v)
    && Present(v.job).Some? && Present(v.job).value.phase.CompletedPendingCleanup?
    && Present(v.last).Some? && Matches(Present(v.last).value, Present(v.job).value)
  }

  /** The window brought up to date, the job not yet dropped. */
  function Halfway(v: View, lim: Limits): (h: View)
    requires Typed(v)
    ensures Typed(h)
  {
    if !Completing(v) then v else
    var window := Window(v.window, lim);
    if Holds(window.entries, Present(v.last).value) then v
    else v.(window := Ok(Some(Extended(window, Present(v.job).value, Present(v.last).value))))
  }

  function Finished(v: View, lim: Limits): (f: View)
    requires Typed(v)
    ensures Typed(f)
  {
    if Completing(v) then Halfway(v, lim).(job := Ok(None)) else v
  }

  function ActionOf(v: View): (Action, Option<State>)
    requires Typed(v)
  {
    if IsBlocked(v) then (Blocked, None)
    else if v.job.Err? then (ReCollectFresh, None)
    else if v.job.value.None? || Completing(v) then (NoAction, None)
    else (PlanFor(v.job.value.value).action, v.job.value)
  }

  /** Stopped half-way or run to the end, the next run decides the same and ends the same. */
  lemma RunningAgainDecidesTheSame(v: View, lim: Limits)
    requires Typed(v)
    ensures Halfway(Halfway(v, lim), lim) == Halfway(v, lim)
    ensures Finished(Halfway(v, lim), lim) == Finished(v, lim)
    ensures Halfway(Finished(v, lim), lim) == Finished(v, lim) == Finished(Finished(v, lim), lim)
    ensures ActionOf(Halfway(v, lim)) == ActionOf(v) == ActionOf(Finished(v, lim))
  {
    var h := Halfway(v, lim);
    if Completing(v) && h != v {
      assert Window(h.window, lim).entries == h.window.value.value.entries;
    }
  }

  /** Every durable content means the same as stopping half-way or at the end. */
  ghost predicate ByView(c: Codec, v: View, lim: Limits, disks: seq<Disk>)
    requires Typed(v)
  {
    forall i :: 0 <= i < |disks| ==> ViewOf(c, disks[i]) == Halfway(v, lim) || ViewOf(c, disks[i]) == Finished(v, lim)
  }

  /** No read fails; the save of the window or the removal of the job may. */
  predicate ReadsWork(e: RecoverEnv) {
    e == Undisturbed(e.now).(save := e.save, remove := e.remove)
  }

  /** Every durable content of a clean-up is the window brought up to date, with the job or
      without; a clean-up that returns has passed through both. */
  lemma CompleteShape(c: Codec, d: Disk, fl: Flags, window: State, job: State, last: State, e: RecoverEnv)
    requires window.DedupeState? && job.ActiveJobState? && last.LastSuccessState? && KeyOf(ActiveJob) in d
    ensures var r := Complete(c, d, fl, window, job, last, e);
            var d1 := UpToDate(c, d, window, job, last, e.now);
            && (forall i :: 0 <= i < |r.disks| ==> r.disks[i] == d1 || r.disks[i] == d1 - {KeyOf(ActiveJob)})
            && (r.result.Ok? ==> r.result == Ok(true) && Last(d, r.disks) == d1 - {KeyOf(ActiveJob)})
            && (e.save.Works? && e.remove.Works? ==> r.result.Ok?)
  {
    if !Holds(window.entries, last) {
      SavedKeepsJob(d, UpToDate(c, d, window, job, last, e.now), c.encode(Extended(window, job, last), e.now));
    }
  }

  lemma StoredIsWellFormed(c: Codec, d: Disk, lim: Limits)
    requires Sound(c)
    ensures WellFormed(Window(ViewOf(c, d).window, lim))
    ensures Present(ViewOf(c, d).last).Some? ==> WellFormed(Present(ViewOf(c, d).last).value)
  {
    WindowIsWellFormed(c, d, true, lim, ReadWorks);
    if Present(ViewOf(c, d).last).Some? {
      LoadedIsWellFormed(LastSuccess, c, d, ReadWorks);
    }
  }

  lemma CompleteByView(c: Codec, d: Disk, fl: Flags, lim: Limits, e: RecoverEnv)
    requires Sound(c) && Completing(ViewOf(c, d)) && Roomy(c, ViewOf(c, d), lim)
    ensures var v := ViewOf(c, d);
            var r := Complete(c, d, fl, Window(v.window, lim), v.job.value.value, v.last.value.value, e);
            && ByView(c, v, lim, r.disks)
            && (r.result.Ok? ==> r.result == Ok(true) && ViewOf(c, Last(d, r.disks)) == Finished(v, lim))
            && (e.save.Works? && e.remove.Works? ==> r.result.Ok?)
  {
    var v := ViewOf(c, d);
    var job, last, window := v.job.value.value, v.last.value.value, Window(v.window, lim);
    LoadedJobIsStored(c, d);
    CompleteShape(c, d, fl, window, job, last, e);
    UpToDateIsHalfway(c, d, lim, e.now);
    TwoStops(c, v, lim, Complete(c, d, fl, window, job, last, e).disks, UpToDate(c, d, window, job, last, e.now));
  }

  lemma UpToDateIsHalfway(c: Codec, d: Disk, lim: Limits, now: I64)
    requires Sound(c) && Completing(ViewOf(c, d)) && Roomy(c, ViewOf(c, d), lim)
    ensures var v := ViewOf(c, d);
            var d1 := UpToDate(c, d, Window(v.window, lim), v.job.value.value, v.last.value.value, now);
            ViewOf(c, d1) == Halfway(v, lim) && ViewOf(c, d1 - {KeyOf(ActiveJob)}) == Finished(v, lim)
  {
    var v := ViewOf(c, d);
    StoredIsWellFormed(c, d, lim);
    UpToDateMeans(c, d, Window(v.window, lim), v.job.value.value, v.last.value.value, now);
    DroppingMeans(c, UpToDate(c, d, Window(v.window, lim), v.job.value.value, v.last.value.value, now));
  }

  lemma TwoStops(c: Codec, v: View, lim: Limits, disks: seq<Disk>, d1: Disk)
    requires Typed(v) && forall i :: 0 <= i < |disks| ==> disks[i] == d1 || disks[i] == d1 - {KeyOf(ActiveJob)}
    requires ViewOf(c, d1) == Halfway(v, lim) && ViewOf(c, d1 - {KeyOf(ActiveJob)}) == Finished(v, lim)
    ensures ByView(c, v, lim, disks)
  {
  }

  lemma ReconcileByView(c: Codec, d: Disk, lim: Limits, e: RecoverEnv)
    requires Sound(c) && Completing(ViewOf(c, d)) && Roomy(c, ViewOf(c, d), lim) && ReadsWork(e)
    ensures var v := ViewOf(c, d);
            var r := Reconcile(c, d, FlagsFor(v), lim, v.job.value.value, e);
            && ByView(c, v, lim, r.disks)
            && (r.result.Ok? ==> r.result == Ok(true) && ViewOf(c, Last(d, r.disks)) == Finished(v, lim))
            && (e.save.Works? && e.remove.Works? ==> r.result.Ok?)
  {
    CompleteByView(c, d, FlagsFor(ViewOf(c, d)), lim, e);
  }

  /** Every write of a run means what the view of its disk says; a run that returns decided
      and ended as the view says, and one without faults returns. */
  ghost predicate AsViewed(c: Codec, d: Disk, lim: Limits, e: RecoverEnv, r: Recovered) {
    var v := ViewOf(c, d);
    && ByView(c, v, lim, r.disks)
    && (r.result.Ok? ==>
          && (r.result.value.action, r.result.value.job) == ActionOf(v)
          && ViewOf(c, Last(d, r.disks)) == Finished(v, lim))
    && (e.save.Works? && e.remove.Works? ==> r.result.Ok?)
  }

  lemma NotReconciled(c: Codec, d: Disk, lim: Limits, e: RecoverEnv)
    requires Present(ViewOf(c, d).job).Some? && !IsBlocked(ViewOf(c, d)) && !Completing(ViewOf(c, d)) && ReadsWork(e)
    ensures var v := ViewOf(c, d);
            AsViewed(c, d, lim, e, RecoverJob(c, d, FlagsFor(v), lim, v.job.value.value, e))
  {
    var v := ViewOf(c, d);
    assert RecoverJob(c, d, FlagsFor(v), lim, v.job.value.value, e)
        == Recovered([], FlagsFor(v), Ok(PlanFor(v.job.value.value)));
  }

  lemma CompletedByView(c: Codec, d: Disk, lim: Limits, e: RecoverEnv)
    requires Sound(c) && Completing(ViewOf(c, d)) && Roomy(c, ViewOf(c, d), lim) && ReadsWork(e)
    ensures var v := ViewOf(c, d);
            AsViewed(c, d, lim, e, RecoverJob(c, d, FlagsFor(v), lim, v.job.value.value, e))
  {
    ReconcileByView(c, d, lim, e);
  }

  lemma NothingToRecover(c: Codec, d: Disk, lim: Limits, e: RecoverEnv)
    requires (IsBlocked(ViewOf(c, d)) || Present(ViewOf(c, d).job).None?) && ReadsWork(e)
    ensures AsViewed(c, d, lim, e, Recover(c, d, FlagsFor(ViewOf(c, d)), lim, e))
  {
  }

  lemma JobToRecover(c: Codec, d: Disk, lim: Limits, e: RecoverEnv)
    requires !IsBlocked(ViewOf(c, d)) && Present(ViewOf(c, d).job).Some? && ReadsWork(e.(dedupe := ReadWorks))
    ensures var v := ViewOf(c, d);
            Recover(c, d, FlagsFor(v), lim, e)
            == RecoverJob(c, d, FlagsFor(v), lim, v.job.value.value, e)
  {
  }

  /** A run whose reads work, from flags that agree with the disk, is a function of the view. */
  lemma RecoverByView(c: Codec, d: Disk, lim: Limits, e: RecoverEnv)
    requires Sound(c) && Roomy(c, ViewOf(c, d), lim) && ReadsWork(e)
    ensures AsViewed(c, d, lim, e, Recover(c, d, FlagsFor(ViewOf(c, d)), lim, e))
  {
    var v := ViewOf(c, d);
    if IsBlocked(v) || Present(v.job).None? {
      NothingToRecover(c, d, lim, e);
    } else {
      JobToRecover(c, d, lim, e);
      if Completing(v) {
        CompletedByView(c, d, lim, e);
      } else {
        NotReconciled(c, d, lim, e);
      }
    }
  }

  // -------------------------------------------------------------- crashes and restarts

  /** When a start happens, and how its save of the window and its removal of the job go. */
  datatype Start = Start(now: I64, save: SaveFault, remove: SaveFault)

  function CleanStart(now: I64): Start {
    Start(now, Works, Works)
  }

  function RecoverEnvOf(t: Start): RecoverEnv {
    Undisturbed(t.now).(save := t.save, remove := t.remove)
  }

  /** A start of the process: open the store, then recover. */
  function Boot(c: Codec, d: Disk, lim: Limits, t: Start): Recovered {
    var o := OpenAll(c, d, (kind: Kind) => UpgradeEnv(ReadWorks, Works, Works, ReadWorks, t.now));
    var r := Recover(c, Last(d, o.disks), FlagsOf(o), lim, RecoverEnvOf(t));
    Recovered(o.disks + r.disks, r.flags, r.result)
  }

  function FlagsOf(o: Opened): Flags {
    Flags(o.sequenceCorrupt, !o.lastSuccessCorrupt, !o.dedupeCorrupt, o.activeJobCorrupt)
  }

  lemma SameStateSameLoad(kind: Kind, c: Codec, d: Disk, x: Disk)
    requires Sound(c) && SameState(kind, c, d, x)
    ensures Loaded(kind, c, x, ReadWorks) == Loaded(kind, c, d, ReadWorks)
  {
    LoadedIsRead(kind, c, x, ReadWorks);
    LoadedIsRead(kind, c, d, ReadWorks);
  }

  ghost predicate SameStates(c: Codec, d: Disk, x: Disk) {
    forall kind :: SameState(kind, c, d, x)
  }

  lemma SameStatesSameView(c: Codec, d: Disk, x: Disk)
    requires Sound(c) && SameStates(c, d, x)
    ensures ViewOf(c, x) == ViewOf(c, d)
  {
    SameStateSameLoad(Sequence, c, d, x);
    SameStateSameLoad(LastSuccess, c, d, x);
    SameStateSameLoad(Dedupe, c, d, x);
    SameStateSameLoad(ActiveJob, c, d, x);
  }

  ghost predicate StatesFit(c: Codec, d: Disk) {
    forall kind :: Fits(kind, c, d)
  }

  lemma RoomyFits(c: Codec, d: Disk, lim: Limits)
    requires Sound(c) && Roomy(c, ViewOf(c, d), lim)
    ensures StatesFit(c, d)
  {
    forall kind
      ensures Fits(kind, c, d)
    {
      LoadedIsRead(kind, c, d, ReadWorks);
    }
  }

  /** Opening without faults sets the flags by what decodes. */
  lemma OpeningFlags(c: Codec, d: Disk, env: Kind -> UpgradeEnv, now: I64)
    requires Sound(c) && StatesFit(c, d)
    requires forall k :: env(k) == UpgradeEnv(ReadWorks, Works, Works, ReadWorks, now)
    ensures FlagsOf(OpenAll(c, d, env)) == FlagsFor(ViewOf(c, d))
  {
    var d1 := Last(d, MigrateAndValidate(Sequence, c, d, env(Sequence)).disks);
    var d2 := Last(d1, MigrateAndValidate(LastSuccess, c, d1, env(LastSuccess)).disks);
    var d3 := Last(d2, MigrateAndValidate(Dedupe, c, d2, env(Dedupe)).disks);
    StepFlags(Sequence, c, d, d, env(Sequence), now);
    StepFlags(LastSuccess, c, d, d1, env(LastSuccess), now);
    StepFlags(Dedupe, c, d, d2, env(Dedupe), now);
    StepFlags(ActiveJob, c, d, d3, env(ActiveJob), now);
  }

  lemma StepFlags(kind: Kind, c: Codec, d: Disk, x: Disk, e: UpgradeEnv, now: I64)
    requires Sound(c) && SameStates(c, d, x) && StatesFit(c, d)
    requires e == UpgradeEnv(ReadWorks, Works, Works, ReadWorks, now)
    ensures MigrateAndValidate(kind, c, x, e).corrupt <==> Loaded(kind, c, d, ReadWorks).Err?
    ensures SameStates(c, d, Last(x, MigrateAndValidate(kind, c, x, e).disks))
  {
    LoadedIsRead(kind, c, d, ReadWorks);
    assert SameState(kind, c, d, x) && Fits(kind, c, d);
    CorruptMeansUndecodable(kind, c, x, now);
    forall k
      ensures SameState(k, c, d, Last(x, MigrateAndValidate(kind, c, x, e).disks))
    {
      assert SameState(k, c, d, x) && Fits(k, c, d);
      var disks := UpgradeKeepsStates(kind, c, x, e, k);
      PrefixIsSame(k, c, x, disks, |disks|);
      assert disks[..|disks|] == disks;
    }
  }

  /** The decision a start comes to and the meaning it leaves behind. */
  function Decided(c: Codec, d: Disk, lim: Limits): (Action, Option<State>, View) {
    Decision(ViewOf(c, d), lim)
  }

  function Decision(v: View, lim: Limits): (Action, Option<State>, View)
    requires Typed(v)
  {
    (ActionOf(v).0, ActionOf(v).1, Finished(v, lim))
  }

  /** The next start decides as one on `d` would, and has as much room. */
  predicate Continues(c: Codec, d: Disk, x: Disk, lim: Limits) {
    Decided(c, x, lim) == Decided(c, d, lim) && Roomy(c, ViewOf(c, x), lim)
  }

  lemma StopsStayRoomy(c: Codec, v: View, lim: Limits)
    requires Typed(v) && Roomy(c, v, lim)
    ensures Roomy(c, Halfway(v, lim), lim) && Roomy(c, Finished(v, lim), lim)
  {
    var h := Halfway(v, lim);
    if h != v {
      assert Window(h.window, lim).entries == h.window.value.value.entries;
    }
  }

  lemma StopsContinue(c: Codec, d: Disk, lim: Limits, disks: seq<Disk>)
    requires Roomy(c, ViewOf(c, d), lim) && ByView(c, ViewOf(c, d), lim, disks)
    ensures forall i :: 0 <= i < |disks| ==> Continues(c, d, disks[i], lim)
  {
    RunningAgainDecidesTheSame(ViewOf(c, d), lim);
    StopsStayRoomy(c, ViewOf(c, d), lim);
  }

  lemma OpeningContinues(c: Codec, d: Disk, lim: Limits, env: Kind -> UpgradeEnv)
    requires Sound(c) && Roomy(c, ViewOf(c, d), lim)
    ensures var disks := OpenAll(c, d, env).disks;
            && ViewOf(c, Last(d, disks)) == ViewOf(c, d)
            && forall i :: 0 <= i < |disks| ==> Continues(c, d, disks[i], lim)
  {
    var disks := OpenAll(c, d, env).disks;
    RoomyFits(c, d, lim);
    forall kind
      ensures AllSame(kind, c, d, disks) && SameState(kind, c, d, Last(d, disks))
    {
      assert Fits(kind, c, d);
      OpenKeepsState(kind, c, d, env);
    }
    SameStatesSameView(c, d, Last(d, disks));
    forall i | 0 <= i < |disks|
      ensures Continues(c, d, disks[i], lim)
    {
      forall kind
        ensures SameState(kind, c, d, disks[i])
      {
        assert AllSame(kind, c, d, disks);
      }
      SameStatesSameView(c, d, disks[i]);
    }
  }

  /** A start that returns decided by the meaning of the records, one without faults returns,
      and no write of any start changes what the next one would decide. */
  lemma BootDecides(c: Codec, d: Disk, lim: Limits, t: Start)
    requires Sound(c) && Roomy(c, ViewOf(c, d), lim)
    ensures var b := Boot(c, d, lim, t);
            && (t == CleanStart(t.now) ==> b.result.Ok?)
            && (b.result.Ok? ==>
                  (b.result.value.action, b.result.value.job, ViewOf(c, Last(d, b.disks))) == Decided(c, d, lim))
            && forall i :: 0 <= i < |b.disks| ==> Continues(c, d, b.disks[i], lim)
  {
    var env := (kind: Kind) => UpgradeEnv(ReadWorks, Works, Works, ReadWorks, t.now);
    var o := OpenAll(c, d, env);
    var d1 := Last(d, o.disks);
    RoomyFits(c, d, lim);
    OpeningFlags(c, d, env, t.now);
    OpeningContinues(c, d, lim, env);
    RecoverByView(c, d1, lim, RecoverEnvOf(t));
    var r := Recover(c, d1, FlagsFor(ViewOf(c, d)), lim, RecoverEnvOf(t));
    StopsContinue(c, d1, lim, r.disks);
    JoinContinues(c, d, lim, o.disks, r.disks);
  }

  lemma JoinContinues(c: Codec, d: Disk, lim: Limits, xs: seq<Disk>, ys: seq<Disk>)
    requires ViewOf(c, Last(d, xs)) == ViewOf(c, d)
    requires forall i :: 0 <= i < |xs| ==> Continues(c, d, xs[i], lim)
    requires forall i :: 0 <= i < |ys| ==> Continues(c, Last(d, xs), ys[i], lim)
    ensures Last(d, xs + ys) == Last(Last(d, xs), ys)
    ensures forall i :: 0 <= i < |xs + ys| ==> Continues(c, d, (xs + ys)[i], lim)
  {
    LastOfJoin(d, xs, ys);
  }

  lemma BootKeepsDecision(c: Codec, lim: Limits)
    requires Sound(c)
    ensures Keeps((d, t) => Boot(c, d, lim, t).disks, d => Roomy(c, ViewOf(c, d), lim), d => Decided(c, d, lim))
  {
    var run := (d, t) => Boot(c, d, lim, t).disks;
    forall d, t, i | Roomy(c, ViewOf(c, d), lim) && 0 <= i < |run(d, t)|
      ensures Continues(c, d, run(d, t)[i], lim)
    {
      BootDecides(c, d, lim, t);
    }
  }

  /** Any number of starts cut off at any write, or failing at the save of the window or the
      removal of the job, then one complete start: the same action, the same job to resume and
      the same stored meaning as one uninterrupted start, at any times. */
  lemma RecoveryIsCrashIdempotent(c: Codec, d: Disk, lim: Limits, cuts: seq<Cut<Start>>, now: I64, when: I64)
    requires Sound(c) && Roomy(c, ViewOf(c, d), lim)
    ensures var x := AfterCuts((d, t) => Boot(c, d, lim, t).disks, d, cuts);
            var again, once := Boot(c, x, lim, CleanStart(now)), Boot(c, d, lim, CleanStart(when));
            && again.result.Ok? && once.result.Ok?
            && again.result.value.action == once.result.value.action
            && again.result.value.job == once.result.value.job
            && ViewOf(c, Last(x, again.disks)) == ViewOf(c, Last(d, once.disks))
  {
    var run := (d, t) => Boot(c, d, lim, t).disks;
    BootKeepsDecision(c, lim);
    CutsKeepOutcome(run, d => Roomy(c, ViewOf(c, d), lim), d => Decided(c, d, lim), d, cuts);
    BootDecides(c, AfterCuts(run, d, cuts), lim, CleanStart(now));
    BootDecides(c, d, lim, CleanStart(when));
  }

  /** What a completed start leaves of the window when it could not be read. */
  function Forgotten(v: View, lim: Limits): State
    requires Typed(v) && Completing(v)
  {
    Extended(EmptyDedupe(lim), v.job.value.value, v.last.value.value)
  }

  lemma ForgottenIsOneEntry(v: View, lim: Limits)
    requires Typed(v) && Completing(v)
    ensures Forgotten(v, lim) == DedupeState(CurrentVersion(Dedupe), [NewEntry(v, lim)], lim.maxEntries, lim.ttlMs)
  {
    assert [] + [NewEntry(v, lim)] == [NewEntry(v, lim)];
  }

  function NewEntry(v: View, lim: Limits): DedupeEntry
    requires Typed(v) && Completing(v)
  {
    EntryFor(v.job.value.value, v.last.value.value, lim.ttlMs)
  }

  /** The stored window has nothing that would be missed: it holds the entry already, and it is
      the only one, under the configured bounds; or it does not, and is empty or about to be
      replaced, because there is room for one entry only. */
  predicate NothingToForget(v: View, lim: Limits)
    requires Typed(v) && Completing(v)
  {
    var stored := Window(v.window, lim).entries;
    if Holds(stored, v.last.value.value) then
      && stored == [NewEntry(v, lim)]
      && v.window.value.value.maxEntries == lim.maxEntries && v.window.value.value.ttlMs == lim.ttlMs
    else stored == [] || lim.maxEntries == 1
  }

  lemma NewestIsOnlyEntry(entries: seq<DedupeEntry>, e: DedupeEntry, max: nat)
    ensures KeepNewest(entries + [e], max) == [e] <==> entries == [] || max == 1
  {
    var all := entries + [e];
    assert all[|all| - 1..] == [e];
    if KeepNewest(all, max) == [e] && entries != [] {
      assert |KeepNewest(all, max)| < |all|;
    }
  }

  lemma ExtendedIsOneEntryIff(window: State, job: State, last: State)
    requires window.DedupeState? && job.ActiveJobState? && last.LastSuccessState?
    ensures var e := EntryFor(job, last, window.ttlMs);
            Extended(window, job, last) == window.(entries := [e]) <==> window.entries == [] || window.maxEntries == 1
  {
    NewestIsOnlyEntry(window.entries, EntryFor(job, last, window.ttlMs), window.maxEntries);
  }

  lemma HalfwayWindow(v: View, lim: Limits)
    requires Typed(v) && Completing(v)
    ensures var window, last := Window(v.window, lim), v.last.value.value;
            && (Holds(window.entries, last) ==> Halfway(v, lim).window == v.window)
            && (!Holds(window.entries, last) ==>
                  Halfway(v, lim).window == Ok(Some(Extended(window, v.job.value.value, last))))
  {
  }

  lemma NothingIsForgottenIff(v: View, lim: Limits)
    requires Typed(v) && Completing(v) && Window(v.window, lim).schemaVersion == CurrentVersion(Dedupe)
    ensures Halfway(v, lim).window == Ok(Some(Forgotten(v, lim))) <==> NothingToForget(v, lim)
  {
    HalfwayWindow(v, lim);
    ForgottenIsOneEntry(v, lim);
    ExtendedIsOneEntryIff(Window(v.window, lim), v.job.value.value, v.last.value.value);
  }

  lemma UpToDateUnread(c: Codec, d: Disk, lim: Limits, now: I64)
    requires Sound(c) && Completing(ViewOf(c, d)) && Roomy(c, ViewOf(c, d), lim)
    ensures var v := ViewOf(c, d);
            var d1 := UpToDate(c, d, EmptyDedupe(lim), v.job.value.value, v.last.value.value, now);
            ViewOf(c, d1 - {KeyOf(ActiveJob)}) == v.(window := Ok(Some(Forgotten(v, lim))), job := Ok(None))
  {
    var v := ViewOf(c, d);
    StoredIsWellFormed(c, d, lim);
    UpToDateMeans(c, d, EmptyDedupe(lim), v.job.value.value, v.last.value.value, now);
    DroppingMeans(c, UpToDate(c, d, EmptyDedupe(lim), v.job.value.value, v.last.value.value, now));
  }

  function Unread(now: I64): RecoverEnv {
    Undisturbed(now).(dedupe := HasFails)
  }

  /** Completing without a readable window. */
  lemma CompletedUnread(c: Codec, d: Disk, lim: Limits, now: I64)
    requires Sound(c) && Completing(ViewOf(c, d)) && Roomy(c, ViewOf(c, d), lim)
    ensures var v := ViewOf(c, d);
            var r := Complete(c, d, FlagsFor(v).(dedupeAvailable := false), EmptyDedupe(lim), v.job.value.value,
                              v.last.value.value, Unread(now));
            && r.result == Ok(true)
            && ViewOf(c, Last(d, r.disks)) == v.(window := Ok(Some(Forgotten(v, lim))), job := Ok(None))
  {
    var v := ViewOf(c, d);
    LoadedJobIsStored(c, d);
    CompleteShape(c, d, FlagsFor(v).(dedupeAvailable := false), EmptyDedupe(lim), v.job.value.value, v.last.value.value,
                  Unread(now));
    UpToDateUnread(c, d, lim, now);
  }

  lemma ReconcileUnread(c: Codec, d: Disk, lim: Limits, now: I64)
    requires Completing(ViewOf(c, d))
    ensures var v := ViewOf(c, d);
            Reconcile(c, d, FlagsFor(v), lim, v.job.value.value, Unread(now))
            == Complete(c, d, FlagsFor(v).(dedupeAvailable := false), EmptyDedupe(lim), v.job.value.value,
                        v.last.value.value, Unread(now))
  {
  }

  /** A window that cannot be read counts as empty: completing then leaves the new entry alone.
      The meaning left is that of an undisturbed run if and only if the stored window had
      nothing else to lose. */
  lemma FailedLoadForgetsWindow(c: Codec, d: Disk, lim: Limits, now: I64)
    requires Sound(c) && Completing(ViewOf(c, d)) && Roomy(c, ViewOf(c, d), lim)
    ensures var v := ViewOf(c, d);
            var r := Recover(c, d, FlagsFor(v), lim, Unread(now));
            && r.result.Ok? && ViewOf(c, Last(d, r.disks)) == v.(window := Ok(Some(Forgotten(v, lim))), job := Ok(None))
            && (ViewOf(c, Last(d, r.disks)) == Finished(v, lim) <==> NothingToForget(v, lim))
  {
    CompletedUnread(c, d, lim, now);
    ReconcileUnread(c, d, lim, now);
    JobToRecover(c, d, lim, Unread(now));
    StoredIsWellFormed(c, d, lim);
    NothingIsForgottenIff(ViewOf(c, d), lim);
  }

  /** The window written by recovery: the newest entries in order, the new one last, within
      the configured bound. */
  lemma WindowKeepsNewest(window: State, job: State, last: State)
    requires window.DedupeState? && job.ActiveJobState? && last.LastSuccessState?
    ensures var kept := Extended(window, job, last).entries;
            var all := window.entries + [EntryFor(job, last, window.ttlMs)];
            && |kept| <= |all| && kept == all[|all| - |kept|..]
            && kept != [] && kept[|kept| - 1] == EntryFor(job, last, window.ttlMs)
            && (window.maxEntries > 0 ==> |kept| == if |all| <= window.maxEntries then |all| else window.maxEntries)
            && (window.maxEntries == 0 ==> kept == all)
  {
    var all := window.entries + [EntryFor(job, last, window.ttlMs)];
    var kept := KeepNewest(all, window.maxEntries);
    assert |kept| == |all| ==> kept == all;
  }
}
