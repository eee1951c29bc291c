/** The migration as written, over the framework store. */
module StateMigrationMethods {
  import opened CrashSchedules
  import opened Wrappers
  import opened Bytes
  import opened CloudState
  import opened RecordText
  import opened DurableStore
  import opened CloudStateStore
  import opened LegacyRecords
  import opened MigrationFormats
  import opened StateMigrationSpec
  import opened MigrationCrashes

  method DetectOld(store: Store, hasFails: OldKey -> bool) returns (any: Result<bool>)
    ensures any == Detect(store.data, OLD_KEYS, hasFails)
  {
    for i := 0 to |OLD_KEYS|
      invariant Detect(store.data, OLD_KEYS, hasFails) == Detect(store.data, OLD_KEYS[i..], hasFails)
    {
      assert OLD_KEYS[i..][1..] == OLD_KEYS[i + 1..];
      if hasFails(OLD_KEYS[i]) {
        return Err("store has failed");
      }
      if OldName(OLD_KEYS[i]) in store.data {
        return Ok(true);
      }
    }
    return Ok(false);
  }

  lemma OneMoreWorks(fault: nat -> SaveFault, n: nat)
    requires AllWork(fault, n) && FaultAt(fault, n).Works?
    ensures AllWork(fault, n + 1)
  {
  }

  lemma DurableAt(fault: nat -> SaveFault, n: nat, i: nat)
    requires i < n && AllWork(fault, i) && !FaultAt(fault, i).Works?
    ensures Durable(fault, n) == (if FaultAt(fault, i).NotWritten? then i else i + 1) && !AllWork(fault, n)
  {
    if i < n - 1 {
      DurableAt(fault, n - 1, i);
    }
  }

  lemma {:induction false} DurableStops(fault: nat -> SaveFault, m: nat, n: nat)
    requires m <= n && !AllWork(fault, m)
    ensures Durable(fault, n) == Durable(fault, m) && !AllWork(fault, n)
    decreases n
  {
    if m < n {
      DurableStops(fault, m, n - 1);
    }
  }

  /** The store after the first `n` old keys have been removed. */
  ghost predicate HasCleaned(store: Store, d: Disk, before: seq<Disk>, n: nat)
    requires n <= |OLD_KEYS|
    reads store
  {
    && store.Valid()
    && store.data == d - Names(OLD_KEYS[..n])
    && store.trace == before + CleanTrace(d, OLD_KEYS[..n])
  }

  method RemoveNext(store: Store, ghost d: Disk, ghost before: seq<Disk>, i: nat, fault: SaveFault)
    returns (r: Result<bool>)
    requires i < |OLD_KEYS| && HasCleaned(store, d, before, i)
    modifies store
    ensures r.Ok? == fault.Works? && HasCleaned(store, d, before, if fault.NotWritten? then i else i + 1)
    ensures r.Ok? ==> |CleanTrace(d, OLD_KEYS[..i + 1])| == |CleanTrace(d, OLD_KEYS[..i])| + if r.value then 1 else 0
  {
    ghost var upTo := OLD_KEYS[..i + 1];
    assert upTo[..i] == OLD_KEYS[..i] && upTo[i] == OLD_KEYS[i];
    CleanOne(d, upTo);
    r := store.Remove(OldName(OLD_KEYS[i]), fault);
  }

  /** Removes the old keys one by one, up to the first removal that fails. */
  method CleanOld(store: Store, x: Faults) returns (ok: bool, cleaned: nat)
    requires store.Valid()
    modifies store
    ensures store.Valid() && ok == Clean(old(store.data), x).ok
    ensures store.trace == old(store.trace) + Clean(old(store.data), x).disks
    ensures store.data == old(store.data) - Names(OLD_KEYS[..Durable(x.remove, |OLD_KEYS|)])
    ensures ok ==> cleaned == |CleanTrace(old(store.data), OLD_KEYS)|
  {
    cleaned := 0;
    ghost var d, before := store.data, store.trace;
    for i := 0 to |OLD_KEYS|
      invariant HasCleaned(store, d, before, i) && AllWork(x.remove, i)
      invariant cleaned == |CleanTrace(d, OLD_KEYS[..i])|
    {
      var removed := RemoveNext(store, d, before, i, FaultAt(x.remove, i));
      if removed.Err? {
        DurableAt(x.remove, |OLD_KEYS|, i);
        return false, cleaned;
      }
      OneMoreWorks(x.remove, i);
      if removed.value {
        cleaned := cleaned + 1;
      }
    }
    assert OLD_KEYS[..|OLD_KEYS|] == OLD_KEYS;
    return true, cleaned;
  }

  lemma CleanOne(d: Disk, keys: seq<OldKey>)
    requires keys != []
    ensures var n := |keys| - 1;
            var before := d - Names(keys[..n]);
            && before - {OldName(keys[n])} == d - Names(keys)
            && CleanTrace(d, keys) == CleanTrace(d, keys[..n])
                                      + if OldName(keys[n]) in before then [before - {OldName(keys[n])}] else []
  {
    var n := |keys| - 1;
    assert Names(keys) == Names(keys[..n]) + {OldName(keys[n])};
  }

  lemma WrittenOneMore(c: RecordCodec, d: Disk, done: seq<Record>, r: Record, at: nat -> I64)
    ensures Written(c, d, done + [r], at) == Put(c, Written(c, d, done, at), r, at(|done|))
    ensures WriteTrace(c, d, done + [r], at) == WriteTrace(c, d, done, at) + [Written(c, d, done + [r], at)]
  {
    assert (done + [r])[..|done|] == done;
  }

  /** The store after `done` has been written on `d`, whose earlier trace is `before`. */
  ghost predicate HasWritten(store: Store, c: RecordCodec, d: Disk, before: seq<Disk>, done: seq<Record>, at: nat -> I64)
    reads store
  {
    && store.Valid()
    && store.data == Written(c, d, done, at)
    && store.trace == before + WriteTrace(c, d, done, at)
  }

  function AfterSave(done: seq<Record>, r: Record, fault: SaveFault): seq<Record> {
    if fault.NotWritten? then done else done + [r]
  }

  method WriteRecord(
    store: Store, c: RecordCodec, ghost d: Disk, ghost before: seq<Disk>, ghost done: seq<Record>, r: Record, clock: Clock,
    written: nat, fault: SaveFault)
    returns (ok: bool, ghost nowDone: seq<Record>)
    requires HasWritten(store, c, d, before, done, clock.at) && written == |done|
    modifies store
    ensures HasWritten(store, c, d, before, nowDone, clock.at)
    ensures ok == fault.Works? && nowDone == AfterSave(done, r, fault)
  {
    WrittenOneMore(c, d, done, r, clock.at);
    ok := store.Save(Key(SlotOf(r)), c.write(r, clock.at(written)), fault);
    nowDone := AfterSave(done, r, fault);
  }

  /** Of `records`, those that become durable before a save fails. */
  function Saves(records: seq<Record>, x: Faults): seq<Record> {
    records[..Durable(x.save, |records|)]
  }

  /** On top of `done` the first `i` of `records` have been saved. */
  predicate SavedUpTo(done: seq<Record>, records: seq<Record>, i: nat, x: Faults, nowDone: seq<Record>)
    requires i <= |records|
  {
    nowDone == done + records[..i] && AllWork(x.save, |done| + i)
  }

  /** All of `records` have been saved on top of `done`, or as many as can be. */
  predicate SavedAll(done: seq<Record>, records: seq<Record>, x: Faults, nowDone: seq<Record>, ok: bool) {
    nowDone == Saves(done + records, x) && ok == AllWork(x.save, |done + records|)
  }

  lemma SaveCounts(
    done: seq<Record>, records: seq<Record>, i: nat, x: Faults, soFar: seq<Record>, fault: SaveFault, nowDone: seq<Record>)
    requires i < |records| && SavedUpTo(done, records, i, x, soFar) && fault == FaultAt(x.save, |done| + i)
    requires nowDone == AfterSave(soFar, records[i], fault)
    ensures fault.Works? ==> SavedUpTo(done, records, i + 1, x, nowDone) && |nowDone| == |soFar| + 1
    ensures !fault.Works? ==> SavedAll(done, records, x, nowDone, false)
  {
    assert soFar + [records[i]] == done + records[..i + 1];
    if fault.Works? {
      OneMoreWorks(x.save, |done| + i);
    } else {
      DurableAt(x.save, |done + records|, |done| + i);
    }
  }

  lemma SavingStartsAndEnds(done: seq<Record>, records: seq<Record>, x: Faults)
    requires AllWork(x.save, |done|)
    ensures SavedUpTo(done, records, 0, x, done)
    ensures forall nowDone :: SavedUpTo(done, records, |records|, x, nowDone) ==> SavedAll(done, records, x, nowDone, true)
  {
    assert done + records[..0] == done && records[..|records|] == records;
  }

  method WriteNext(
    store: Store, c: RecordCodec, ghost d: Disk, ghost before: seq<Disk>, ghost done: seq<Record>, ghost soFar: seq<Record>,
    records: seq<Record>, i: nat, clock: Clock, written: nat, x: Faults)
    returns (ok: bool, ghost nowDone: seq<Record>)
    requires HasWritten(store, c, d, before, soFar, clock.at) && i < |records|
    requires SavedUpTo(done, records, i, x, soFar) && written == |soFar| == |done| + i
    modifies store
    ensures HasWritten(store, c, d, before, nowDone, clock.at)
    ensures ok ==> SavedUpTo(done, records, i + 1, x, nowDone) && |nowDone| == written + 1
    ensures !ok ==> SavedAll(done, records, x, nowDone, false)
  {
    var fault := FaultAt(x.save, written);
    ok, nowDone := WriteRecord(store, c, d, before, soFar, records[i], clock, written, fault);
    SaveCounts(done, records, i, x, soFar, fault, nowDone);
  }

  /** Writes the records of one step, continuing the numbering of the writes. */
  method WriteRecords(
    store: Store, c: RecordCodec, ghost d: Disk, ghost before: seq<Disk>, ghost done: seq<Record>, records: seq<Record>,
    clock: Clock, written: nat, x: Faults)
    returns (ok: bool, ghost nowDone: seq<Record>)
    requires HasWritten(store, c, d, before, done, clock.at) && written == |done| && AllWork(x.save, |done|)
    modifies store
    ensures HasWritten(store, c, d, before, nowDone, clock.at) && SavedAll(done, records, x, nowDone, ok)
  {
    SavingStartsAndEnds(done, records, x);
    nowDone := done;
    for i := 0 to |records|
      invariant HasWritten(store, c, d, before, nowDone, clock.at)
      invariant |nowDone| == written + i && SavedUpTo(done, records, i, x, nowDone)
    {
      ok, nowDone := WriteNext(store, c, d, before, done, nowDone, records, i, clock, written + i, x);
      if !ok {
        return;
      }
    }
    ok := true;
  }

  /** One old key: read it, convert it, write what it becomes; a failure stops the run. */
  method MoveKey(
    store: Store, c: RecordCodec, f: Formats, ghost d: Disk, ghost before: seq<Disk>, ghost done: seq<Record>, key: OldKey,
    clock: Clock, written: nat, x: Faults)
    returns (ok: bool, nowWritten: nat, ghost nowDone: seq<Record>)
    requires HasWritten(store, c, d, before, done, clock.at) && written == |done| && AllWork(x.save, |done|)
    modifies store
    ensures HasWritten(store, c, d, before, nowDone, clock.at)
    ensures var p := Stage(f, key, Held(d, OldName(key)), x.move(key));
            && SavedAll(done, p.records, x, nowDone, ok || p.error.Some?)
            && (ok ==> p.error.None? && nowWritten == written + |p.records|)
  {
    WrittenKeepsOldKey(c, d, done, clock.at, key);
    SavingStartsAndEnds(done, [], x);
    var read := store.ReadText(OldName(key), x.move(key));
    if read.Err? {
      return false, written, done;
    }
    if read.value.None? {
      return true, written, done;
    }
    var records := f.records(key, read.value.value);
    if records.Err? {
      return false, written, done;
    }
    ok, nowDone := WriteRecords(store, c, d, before, done, records.value, clock, written, x);
    nowWritten := written + |records.value|;
  }

  // ------------------------------------------------------------------------- the whole run

  /** Everything before step `k` has been written, and the plan goes on with the rest. */
  ghost predicate OnTrack(f: Formats, s: Snapshot, done: seq<Record>, k: nat, x: Faults)
    requires k <= |STEPS|
  {
    && AllWork(x.save, |done|)
    && Plan(f, s, x.move).records == done + PlanOf(f, s, STEPS[k..], x.move).records
    && Plan(f, s, x.move).error == PlanOf(f, s, STEPS[k..], x.move).error
  }

  /** A read, a conversion or a save has failed; what was planned before it is durable. */
  ghost predicate Halted(f: Formats, s: Snapshot, done: seq<Record>, x: Faults) {
    var p := Plan(f, s, x.move);
    && done == Saves(p.records, x)
    && (p.error.Some? || !AllWork(x.save, |p.records|))
  }

  /** One more step: the run is on track for the next one or has halted. */
  lemma StepTaken(
    f: Formats, s: Snapshot, k: nat, done: seq<Record>, x: Faults, nowDone: seq<Record>, allSaved: bool)
    requires k < |STEPS| && OnTrack(f, s, done, k, x)
    requires SavedAll(done, StepPlan(f, s, STEPS[k], x.move).records, x, nowDone, allSaved)
    ensures var p := StepPlan(f, s, STEPS[k], x.move);
            if p.error.None? && allSaved
            then OnTrack(f, s, nowDone, k + 1, x) && |nowDone| == |done| + |p.records|
            else Halted(f, s, nowDone, x)
  {
    assert STEPS[k..][1..] == STEPS[k + 1..];
    var taken := done + StepPlan(f, s, STEPS[k], x.move).records;
    assert taken <= Plan(f, s, x.move).records;
    if !allSaved {
      DurableStops(x.save, |taken|, |Plan(f, s, x.move).records|);
    }
  }

  lemma NothingTaken(f: Formats, s: Snapshot, x: Faults)
    ensures OnTrack(f, s, [], 0, x)
  {
    assert STEPS[0..] == STEPS;
  }

  lemma AllStepsTaken(f: Formats, s: Snapshot, done: seq<Record>, x: Faults)
    requires OnTrack(f, s, done, |STEPS|, x)
    ensures Plan(f, s, x.move) == Planned(done, None) && Saves(done, x) == done
  {
    assert STEPS[|STEPS|..] == [];
  }

  /** `s` is what the old keys of `d` hold. */
  ghost predicate Mirrors(s: Snapshot, d: Disk) {
    forall k :: HeldIn(s, k) == Held(d, OldName(k))
  }

  lemma SnapshotMirrors(d: Disk)
    ensures Mirrors(SnapshotOf(d), d)
  {
  }

  method TakeStep(
    store: Store, c: RecordCodec, f: Formats, ghost d: Disk, ghost s: Snapshot, ghost before: seq<Disk>,
    ghost done: seq<Record>, ghost k: nat, key: OldKey, clock: Clock, written: nat, x: Faults)
    returns (ok: bool, nowWritten: nat, ghost nowDone: seq<Record>)
    requires k < |STEPS| && STEPS[k] == Move(key)
    requires Mirrors(s, d) && HasWritten(store, c, d, before, done, clock.at) && written == |done|
    requires OnTrack(f, s, done, k, x)
    modifies store
    ensures HasWritten(store, c, d, before, nowDone, clock.at)
    ensures ok ==> OnTrack(f, s, nowDone, k + 1, x) && nowWritten == |nowDone|
    ensures !ok ==> Halted(f, s, nowDone, x)
  {
    assert HeldIn(s, key) == Held(d, OldName(key));
    ok, nowWritten, nowDone := MoveKey(store, c, f, d, before, done, key, clock, written, x);
    StepTaken(f, s, k, done, x, nowDone, ok || Stage(f, key, HeldIn(s, key), x.move(key)).error.Some?);
  }

  /** The counters of an old key, decoded with its records, replace the ones known so far. */
  method ReadCounters(
    store: Store, c: RecordCodec, f: Formats, ghost d: Disk, ghost s: Snapshot, ghost before: seq<Disk>,
    ghost done: seq<Record>, key: OldKey, known: Record, clock: Clock)
    returns (counters: Record)
    requires Mirrors(s, d) && HasWritten(store, c, d, before, done, clock.at)
    ensures counters == CountersOr(f, key, HeldIn(s, key), known)
  {
    assert HeldIn(s, key) == Held(d, OldName(key));
    WrittenKeepsOldKey(c, d, done, clock.at, key);
    counters := known;
    var read := store.ReadText(OldName(key), ReadWorks);
    if read.Ok? && read.value.Some? {
      var r := f.counters(key, read.value.value);
      if r.Ok? {
        counters := r.value;
      }
    }
  }

  method WriteTaskRecords(
    store: Store, c: RecordCodec, f: Formats, ghost d: Disk, ghost s: Snapshot, ghost before: seq<Disk>,
    ghost done: seq<Record>, clock: Clock, written: nat, x: Faults)
    returns (ok: bool, nowWritten: nat, ghost nowDone: seq<Record>)
    requires Mirrors(s, d) && HasWritten(store, c, d, before, done, clock.at) && written == |done|
    requires OnTrack(f, s, done, 0, x)
    modifies store
    ensures HasWritten(store, c, d, before, nowDone, clock.at)
    ensures ok ==> OnTrack(f, s, nowDone, 2, x) && nowWritten == |nowDone|
    ensures !ok ==> Halted(f, s, nowDone, x)
  {
    ok, nowWritten, nowDone := TakeStep(store, c, f, d, s, before, done, 0, OVehicleTask, clock, written, x);
    if !ok { return; }
    ok, nowWritten, nowDone := TakeStep(store, c, f, d, s, before, nowDone, 1, OInventory, clock, nowWritten, x);
  }

  method WritePackageRecords(
    store: Store, c: RecordCodec, f: Formats, ghost d: Disk, ghost s: Snapshot, ghost before: seq<Disk>,
    ghost done: seq<Record>, clock: Clock, written: nat, x: Faults)
    returns (ok: bool, nowWritten: nat, ghost nowDone: seq<Record>)
    requires Mirrors(s, d) && HasWritten(store, c, d, before, done, clock.at) && written == |done|
    requires OnTrack(f, s, done, 2, x)
    modifies store
    ensures HasWritten(store, c, d, before, nowDone, clock.at)
    ensures ok ==> OnTrack(f, s, nowDone, 4, x) && nowWritten == |nowDone|
    ensures !ok ==> Halted(f, s, nowDone, x)
  {
    ok, nowWritten, nowDone := TakeStep(store, c, f, d, s, before, done, 2, OConsent, clock, written, x);
    if !ok { return; }
    ok, nowWritten, nowDone := TakeStep(store, c, f, d, s, before, nowDone, 3, ODownloads, clock, nowWritten, x);
  }

  /** One of the two old keys that carry counters; those of the later one win. */
  method WriteCounted(
    store: Store, c: RecordCodec, f: Formats, ghost d: Disk, ghost s: Snapshot, ghost before: seq<Disk>,
    ghost done: seq<Record>, ghost k: nat, key: OldKey, known: Record, clock: Clock, written: nat, x: Faults)
    returns (ok: bool, nowWritten: nat, ghost nowDone: seq<Record>, counters: Record)
    requires k < |STEPS| && STEPS[k] == Move(key)
    requires Mirrors(s, d) && HasWritten(store, c, d, before, done, clock.at) && written == |done|
    requires OnTrack(f, s, done, k, x)
    modifies store
    ensures HasWritten(store, c, d, before, nowDone, clock.at)
    ensures ok ==> OnTrack(f, s, nowDone, k + 1, x) && nowWritten == |nowDone|
    ensures ok ==> counters == CountersOr(f, key, HeldIn(s, key), known)
    ensures !ok ==> Halted(f, s, nowDone, x)
  {
    counters := known;
    ok, nowWritten, nowDone := TakeStep(store, c, f, d, s, before, done, k, key, clock, written, x);
    if ok {
      counters := ReadCounters(store, c, f, d, s, before, nowDone, key, known, clock);
    }
  }

  lemma CountersByKey(f: Formats, s: Snapshot)
    ensures Counters(f, s) == CountersOr(f, OEventOutbox, HeldIn(s, OEventOutbox),
                                         CountersOr(f, OExecution, HeldIn(s, OExecution), FIRST_COUNTERS))
  {
  }

  /** The execution and the events. */
  method WriteEventRecords(
    store: Store, c: RecordCodec, f: Formats, ghost d: Disk, ghost s: Snapshot, ghost before: seq<Disk>,
    ghost done: seq<Record>, clock: Clock, written: nat, x: Faults)
    returns (ok: bool, nowWritten: nat, ghost nowDone: seq<Record>, counters: Record)
    requires Mirrors(s, d) && HasWritten(store, c, d, before, done, clock.at) && written == |done|
    requires OnTrack(f, s, done, 4, x)
    modifies store
    ensures HasWritten(store, c, d, before, nowDone, clock.at)
    ensures ok ==> OnTrack(f, s, nowDone, 6, x) && nowWritten == |nowDone|
    ensures ok ==> counters == Counters(f, s)
    ensures !ok ==> Halted(f, s, nowDone, x)
  {
    CountersByKey(f, s);
    ok, nowWritten, nowDone, counters :=
      WriteCounted(store, c, f, d, s, before, done, 4, OExecution, FIRST_COUNTERS, clock, written, x);
    if ok {
      ok, nowWritten, nowDone, counters :=
        WriteCounted(store, c, f, d, s, before, nowDone, 5, OEventOutbox, counters, clock, nowWritten, x);
    }
  }

  method WriteCounters(
    store: Store, c: RecordCodec, f: Formats, ghost d: Disk, ghost s: Snapshot, ghost before: seq<Disk>,
    ghost done: seq<Record>, counters: Record, clock: Clock, written: nat, x: Faults)
    returns (ok: bool, ghost nowDone: seq<Record>)
    requires Mirrors(s, d) && HasWritten(store, c, d, before, done, clock.at) && written == |done|
    requires OnTrack(f, s, done, 6, x) && counters == Counters(f, s)
    modifies store
    ensures HasWritten(store, c, d, before, nowDone, clock.at)
    ensures ok ==> OnTrack(f, s, nowDone, 7, x) && |nowDone| == |done| + 1
    ensures !ok ==> Halted(f, s, nowDone, x)
  {
    ok, nowDone := WriteRecords(store, c, d, before, done, [counters], clock, written, x);
    StepTaken(f, s, 6, done, x, nowDone, ok);
  }

  method WriteOtherRecords(
    store: Store, c: RecordCodec, f: Formats, ghost d: Disk, ghost s: Snapshot, ghost before: seq<Disk>,
    ghost done: seq<Record>, clock: Clock, written: nat, x: Faults)
    returns (ok: bool, nowWritten: nat, ghost nowDone: seq<Record>)
    requires Mirrors(s, d) && HasWritten(store, c, d, before, done, clock.at) && written == |done|
    requires OnTrack(f, s, done, 7, x)
    modifies store
    ensures HasWritten(store, c, d, before, nowDone, clock.at)
    ensures ok ==> OnTrack(f, s, nowDone, 10, x) && nowWritten == |nowDone|
    ensures !ok ==> Halted(f, s, nowDone, x)
  {
    ok, nowWritten, nowDone := TakeStep(store, c, f, d, s, before, done, 7, OControls, clock, written, x);
    if !ok { return; }
    ok, nowWritten, nowDone := TakeStep(store, c, f, d, s, before, nowDone, 8, OPolicy, clock, nowWritten, x);
    if !ok { return; }
    ok, nowWritten, nowDone := TakeStep(store, c, f, d, s, before, nowDone, 9, OLogJobs, clock, nowWritten, x);
  }

  /** The ten steps, up to the first failure. */
  method WriteAll(store: Store, c: RecordCodec, f: Formats, clock: Clock, x: Faults)
    returns (ok: bool, written: nat, ghost done: seq<Record>)
    requires store.Valid()
    modifies store
    ensures HasWritten(store, c, old(store.data), old(store.trace), done, clock.at)
    ensures var p := Plan(f, SnapshotOf(old(store.data)), x.move);
            && done == Saves(p.records, x)
            && ok == (p.error.None? && AllWork(x.save, |p.records|))
            && (ok ==> written == |p.records|)
  {
    ghost var d, before, s := store.data, store.trace, SnapshotOf(store.data);
    SnapshotMirrors(d);
    NothingTaken(f, s, x);
    ok, written, done := WriteTaskRecords(store, c, f, d, s, before, [], clock, 0, x);
    if !ok { return; }
    ok, written, done := WritePackageRecords(store, c, f, d, s, before, done, clock, written, x);
    if !ok { return; }
    var counters;
    ok, written, done, counters := WriteEventRecords(store, c, f, d, s, before, done, clock, written, x);
    if !ok { return; }
    ok, done := WriteCounters(store, c, f, d, s, before, done, counters, clock, written, x);
    if !ok { return; }
    ok, written, done := WriteOtherRecords(store, c, f, d, s, before, done, clock, written + 1, x);
    if !ok { return; }
    AllStepsTaken(f, s, done, x);
  }

  /** Re-reads the fixed keys. */
  method CheckConsistency(store: Store, c: RecordCodec, fault: Slot -> ReadFault) returns (ok: bool)
    ensures ok == Checked(c, store.data, fault)
  {
    for i := 0 to |FIXED_SLOTS|
      invariant forall k :: 0 <= k < i ==>
                  && !ReadFails(Held(store.data, Key(FIXED_SLOTS[k])), fault(FIXED_SLOTS[k]))
                  && Loaded(c, FIXED_SLOTS[k], store.data).Ok?
    {
      var r := store.ReadText(Key(FIXED_SLOTS[i]), fault(FIXED_SLOTS[i]));
      if r.Err? || (r.value.Some? && c.read(KindOf(FIXED_SLOTS[i]), r.value.value).Err?) {
        return false;
      }
    }
    return true;
  }

  datatype MigrationResult = MigrationResult(ran: bool, completed: bool, migratedKeys: nat)

  lemma {:induction false} SameOldSameCount(d: Disk, x: Disk, keys: seq<OldKey>)
    requires forall k :: Held(x, OldName(k)).Some? == Held(d, OldName(k)).Some?
    ensures |CleanTrace(x, keys)| == |CleanTrace(d, keys)|
  {
    if keys != [] {
      var n := |keys| - 1;
      SameOldSameCount(d, x, keys[..n]);
      assert Held(x, OldName(keys[n])).Some? == Held(d, OldName(keys[n])).Some?;
    }
  }

  /** The marker first, and only then the removals. */
  method MarkAndClean(store: Store, f: Formats, ghost records: seq<Record>, clock: Clock, written: nat, x: Faults)
    returns (ok: bool, cleaned: nat)
    requires store.Valid() && written == |records|
    modifies store
    ensures store.Valid()
    ensures var d2 := Marked(f, old(store.data), records, clock);
            var done := Finish(d2, FaultAt(x.save, |records|), x);
            && ok == done.ok && (ok ==> cleaned == |CleanTrace(d2, OLD_KEYS)|)
            && store.trace == old(store.trace) + done.disks
            && store.data == Last(old(store.data), done.disks)
  {
    var marker := Marker(1, true, ToU32(written), clock.migratedAt);
    ghost var d, before, d2 := store.data, store.trace, Marked(f, store.data, records, clock);
    var saved := store.Save(MARKER_KEY, f.writeMarker(marker, clock.at(written)), FaultAt(x.save, written));
    if !saved {
      return false, 0;
    }
    ok, cleaned := CleanOld(store, x);
    FinishInParts(d, d2, before, x);
  }

  lemma FinishInParts(d: Disk, d2: Disk, before: seq<Disk>, x: Faults)
    ensures before + [d2] + Clean(d2, x).disks == before + Finish(d2, Works, x).disks
    ensures Last(d, Finish(d2, Works, x).disks) == d2 - Names(OLD_KEYS[..Durable(x.remove, |OLD_KEYS|)])
  {
    FinishEnds(d2, Works, x);
    LastIsLast(d, d2, [], Finish(d2, Works, x).disks);
    assert before + [d2] + Clean(d2, x).disks == before + ([d2] + Clean(d2, x).disks);
  }

  lemma ConvertInParts(c: RecordCodec, f: Formats, d: Disk, before: seq<Disk>, p: Planned, clock: Clock, x: Faults)
    ensures var writes := WriteTrace(c, d, Saves(p.records, x), clock.at);
            var d1 := Written(c, d, p.records, clock.at);
            var r := Convert(c, f, d, p, clock, x);
            && Last(d, writes) == Written(c, d, Saves(p.records, x), clock.at)
            && (AllWork(x.save, |p.records|) ==> Saves(p.records, x) == p.records)
            && (!ReachesMarker(c, d, p, clock, x) ==> !r.ok && r.disks == writes)
            && (ReachesMarker(c, d, p, clock, x) ==>
                  var done := Finish(Marked(f, d1, p.records, clock), FaultAt(x.save, |p.records|), x);
                  && r.ok == done.ok && before + writes + done.disks == before + r.disks
                  && Last(d, r.disks) == Last(d1, done.disks))
  {
    LastOfTrace(c, d, Saves(p.records, x), clock.at);
    if ReachesMarker(c, d, p, clock, x) {
      var writes := WriteTrace(c, d, Saves(p.records, x), clock.at);
      var done := Finish(Marked(f, Written(c, d, p.records, clock.at), p.records, clock), FaultAt(x.save, |p.records|), x);
      LastOfTwo(d, writes, done.disks);
      assert before + writes + done.disks == before + (writes + done.disks);
    }
  }

  lemma LastOfTwo<D>(d: D, xs: seq<D>, ys: seq<D>)
    ensures Last(d, xs + ys) == Last(Last(d, xs), ys)
  {
    if ys == [] {
      assert xs + ys == xs;
    }
  }

  /** Convert, check, mark, clean. */
  method ConvertOld(store: Store, c: RecordCodec, f: Formats, clock: Clock, x: Faults) returns (ok: bool, cleaned: nat)
    requires store.Valid()
    modifies store
    ensures store.Valid()
    ensures var r := Convert(c, f, old(store.data), Plan(f, SnapshotOf(old(store.data)), x.move), clock, x);
            && ok == r.ok && store.trace == old(store.trace) + r.disks
            && store.data == Last(old(store.data), r.disks)
    ensures ok ==> cleaned == |CleanTrace(old(store.data), OLD_KEYS)|
  {
    ghost var d, before, p := store.data, store.trace, Plan(f, SnapshotOf(store.data), x.move);
    ConvertInParts(c, f, d, before, p, clock, x);
    CountAfterMark(c, f, d, p.records, clock);
    cleaned := 0;
    var written;
    ghost var done;
    ok, written, done := WriteAll(store, c, f, clock, x);
    if ok {
      ok := CheckConsistency(store, c, x.check);
      if ok {
        ok, cleaned := MarkAndClean(store, f, p.records, clock, written, x);
      }
    }
  }

  lemma CountAfterMark(c: RecordCodec, f: Formats, d: Disk, records: seq<Record>, clock: Clock)
    ensures |CleanTrace(Marked(f, Written(c, d, records, clock.at), records, clock), OLD_KEYS)|
         == |CleanTrace(d, OLD_KEYS)|
  {
    var x := Marked(f, Written(c, d, records, clock.at), records, clock);
    forall k
      ensures Held(x, OldName(k)).Some? == Held(d, OldName(k)).Some?
    {
      WrittenKeepsOldKey(c, d, records, clock.at, k);
      OldNamesAreApart(k, VehicleTask);
    }
    SameOldSameCount(d, x, OLD_KEYS);
  }

  /** Whether a completed marker is there; throws on a read failure or an undecodable one. */
  method ReadMarker(store: Store, f: Formats, fault: ReadFault) returns (done: Result<bool>)
    ensures done.Ok? == MarkerRead(f, Held(store.data, MARKER_KEY), fault).Ok?
    ensures done.Ok? ==> done == MarkerRead(f, Held(store.data, MARKER_KEY), fault)
  {
    var text := store.ReadText(MARKER_KEY, fault);
    if text.Err? {
      return Err(text.error);
    }
    if text.value.None? {
      return Ok(false);
    }
    var m := f.readMarker(text.value.value);
    if m.Err? {
      return Err(m.error);
    }
    return Ok(m.value.completed);
  }

  /** `None` when the run throws. */
  method MigrateOtaToFota(store: Store, c: RecordCodec, f: Formats, clock: Clock, x: Faults)
    returns (r: Option<MigrationResult>)
    requires store.Valid()
    modifies store
    ensures store.Valid()
    ensures var run := Run(c, f, old(store.data), clock, x);
            && r.Some? == run.ok && store.trace == old(store.trace) + run.disks
            && store.data == Last(old(store.data), run.disks)
    ensures r.Some? ==> r.value.completed && r.value.ran == AnyOld(old(store.data))
    ensures r.Some? ==> r.value.migratedKeys == if r.value.ran then |CleanTrace(old(store.data), OLD_KEYS)| else 0
  {
    var any := DetectOld(store, x.detect);
    if any.Err? {
      return None;
    }
    if !any.value {
      return Some(MigrationResult(false, true, 0));
    }
    var markerDone := ReadMarker(store, f, x.marker);
    if markerDone.Err? {
      return None;
    }
    var ok, cleaned;
    if markerDone.value {
      CleanTraceIs(store.data, OLD_KEYS[..Durable(x.remove, |OLD_KEYS|)]);
      ok, cleaned := CleanOld(store, x);
    } else {
      ok, cleaned := ConvertOld(store, c, f, clock, x);
    }
    if !ok {
      return None;
    }
    return Some(MigrationResult(true, true, cleaned));
  }
}
