/** What a successful migration leaves behind, and what makes one succeed. */
module MigrationOutcome {
  import opened Wrappers
  import opened Bytes
  import opened CrashSchedules
  import opened CloudState
  import opened RecordText
  import opened DurableStore
  import opened Json
  import opened CloudStateStore
  import opened LegacyRecords
  import opened MigrationFormats
  import opened StateMigrationSpec
  import opened MigrationCrashes

  /** The records of the six keys that hold one record each can be read. */
  predicate SinglesLoad(c: RecordCodec, d: Disk) {
    && Loaded(c, VehicleTask, d).Ok? && Loaded(c, Inventory, d).Ok? && Loaded(c, Consent, d).Ok?
    && Loaded(c, Execution, d).Ok? && Loaded(c, OutboxMeta, d).Ok? && Loaded(c, Policy, d).Ok?
  }

  lemma SinglesAreChecked(c: RecordCodec, d: Disk)
    ensures Consistent(c, d) <==> SinglesLoad(c, d)
  {
    assert FIXED_SLOTS[0] == VehicleTask && FIXED_SLOTS[1] == Inventory && FIXED_SLOTS[2] == Consent;
    assert FIXED_SLOTS[3] == Execution && FIXED_SLOTS[4] == OutboxMeta && FIXED_SLOTS[5] == Policy;
  }

  /** A load of a key works: the store does not fail, and what is there is a text. */
  predicate CanLoad(d: Disk, key: string, fault: ReadFault) {
    !fault.HasFails? && (key in d ==> fault == ReadWorks && d[key].Text?)
  }

  /** An old key is absent, or holds a text that can be loaded and converts. */
  predicate KeyConverts(f: Formats, d: Disk, k: OldKey, fault: ReadFault) {
    CanLoad(d, OldName(k), fault) && (OldName(k) in d ==> f.records(k, d[OldName(k)].bytes).Ok?)
  }

  lemma HeldIsHeldIn(d: Disk, k: OldKey)
    ensures HeldIn(SnapshotOf(d), k) == Held(d, OldName(k))
  {
  }

  lemma StepConverts(f: Formats, d: Disk, step: Step, fault: OldKey -> ReadFault)
    ensures StepPlan(f, SnapshotOf(d), step, fault).error.None?
            <==> (step.Move? ==> KeyConverts(f, d, step.key, fault(step.key)))
  {
    if step.Move? {
      HeldIsHeldIn(d, step.key);
    }
  }

  lemma {:induction false} StepsConvert(f: Formats, d: Disk, steps: seq<Step>, fault: OldKey -> ReadFault)
    ensures PlanOf(f, SnapshotOf(d), steps, fault).error.None?
            <==> forall k :: Move(k) in steps ==> KeyConverts(f, d, k, fault(k))
    decreases |steps|
  {
    if steps != [] {
      StepConverts(f, d, steps[0], fault);
      StepsConvert(f, d, steps[1..], fault);
      assert forall step :: step in steps <==> step == steps[0] || step in steps[1..];
    }
  }

  lemma EveryKeyIsMoved(k: OldKey)
    ensures Move(k) in STEPS
  {
    var i := match k
      case OVehicleTask => 0 case OInventory => 1 case OConsent => 2 case ODownloads => 3 case OExecution => 4
      case OEventOutbox => 5 case OControls => 7 case OPolicy => 8 case OLogJobs => 9;
    assert STEPS[i] == Move(k);
  }

  /** Everything old can be read and converted: each old key that is there. */
  lemma EverythingConvertsIff(f: Formats, d: Disk, fault: OldKey -> ReadFault)
    ensures Plan(f, SnapshotOf(d), fault).error.None? <==> forall k :: KeyConverts(f, d, k, fault(k))
  {
    StepsConvert(f, d, STEPS, fault);
    forall k
      ensures Move(k) in STEPS
    {
      EveryKeyIsMoved(k);
    }
  }

  // ------------------------------------------------------------------------------- success

  /** The store does not fail while the six single records are read once more. */
  predicate SinglesReadable(d: Disk, fault: Slot -> ReadFault) {
    && CanCheck(d, VehicleTask, fault) && CanCheck(d, Inventory, fault) && CanCheck(d, Consent, fault)
    && CanCheck(d, Execution, fault) && CanCheck(d, OutboxMeta, fault) && CanCheck(d, Policy, fault)
  }

  predicate CanCheck(d: Disk, s: Slot, fault: Slot -> ReadFault) {
    !fault(s).HasFails? && (Key(s) in d ==> fault(s) == ReadWorks)
  }

  lemma CheckedIff(c: RecordCodec, d: Disk, fault: Slot -> ReadFault)
    ensures Checked(c, d, fault) <==> SinglesLoad(c, d) && SinglesReadable(d, fault)
  {
    assert FIXED_SLOTS[0] == VehicleTask && FIXED_SLOTS[1] == Inventory && FIXED_SLOTS[2] == Consent;
    assert FIXED_SLOTS[3] == Execution && FIXED_SLOTS[4] == OutboxMeta && FIXED_SLOTS[5] == Policy;
  }

  /** The saves of `n` records and of the marker work, and so do the nine removals. */
  predicate WritesWork(x: Faults, n: nat) {
    (forall i :: 0 <= i <= n ==> x.save(i) == Works) && (forall i :: 0 <= i < 9 ==> x.remove(i) == Works)
  }

  /** Under every failure of the store: a migration that is due, and has found an old key and no
      completed marker, succeeds if and only if each old key that is there can be loaded and
      converted, each of the six single records can then be read, and every save and removal
      works. */
  lemma MigrationSucceedsIff(c: RecordCodec, f: Formats, d: Disk, clock: Clock, x: Faults)
    requires Detect(d, OLD_KEYS, x.detect) == Ok(true) && MarkerRead(f, Held(d, MARKER_KEY), x.marker) == Ok(false)
    ensures var records := Whole(f, d).records;
            var written := Written(c, d, records, clock.at);
            Run(c, f, d, clock, x).ok
            <==> && (forall k :: KeyConverts(f, d, k, x.move(k)))
                 && SinglesLoad(c, written) && SinglesReadable(written, x.check) && WritesWork(x, |records|)
  {
    var p := Plan(f, SnapshotOf(d), x.move);
    EverythingConvertsIff(f, d, x.move);
    if p.error.None? {
      FaultyPlanIsPart(f, SnapshotOf(d), STEPS, x.move);
      CheckedIff(c, Written(c, d, p.records, clock.at), x.check);
    }
    ConvertSucceedsIff(c, f, d, p, clock, x);
  }

  lemma AllWorkIff(fault: nat -> SaveFault, n: nat)
    ensures AllWork(fault, n) <==> forall i :: 0 <= i < n ==> fault(i) == Works
  {
    if AllWork(fault, n) {
      forall i | 0 <= i < n
        ensures fault(i) == Works
      {
        assert FaultAt(fault, i).Works?;
      }
    }
  }

  lemma ConvertSucceedsIff(c: RecordCodec, f: Formats, d: Disk, p: Planned, clock: Clock, x: Faults)
    ensures Convert(c, f, d, p, clock, x).ok
            <==> && p.error.None? && Checked(c, Written(c, d, p.records, clock.at), x.check)
                 && WritesWork(x, |p.records|)
  {
    WritesWorkIff(x, |p.records|);
    FinishSucceedsIff(Marked(f, Written(c, d, p.records, clock.at), p.records, clock), FaultAt(x.save, |p.records|), x);
  }

  lemma WritesWorkIff(x: Faults, n: nat)
    ensures WritesWork(x, n) <==> AllWork(x.save, n) && FaultAt(x.save, n).Works? && AllWork(x.remove, |OLD_KEYS|)
  {
    AllWorkIff(x.save, n);
    AllWorkIff(x.remove, |OLD_KEYS|);
    assert FaultAt(x.save, n) == x.save(n);
  }

  lemma FinishSucceedsIff(d2: Disk, fault: SaveFault, x: Faults)
    ensures Finish(d2, fault, x).ok <==> fault.Works? && AllWork(x.remove, |OLD_KEYS|)
  {
  }

  lemma {:induction false} DetectIff(d: Disk, keys: seq<OldKey>, fails: OldKey -> bool)
    ensures Detect(d, keys, fails) == Ok(true)
            <==> exists i: nat :: i < |keys| && OldName(keys[i]) in d && forall k :: 0 <= k <= i ==> !fails(keys[k])
  {
    if keys != [] {
      DetectIff(d, keys[1..], fails);
      if i: nat :| i < |keys[1..]| && OldName(keys[1..][i]) in d && forall k :: 0 <= k <= i ==> !fails(keys[1..][k]) {
        if !fails(keys[0]) {
          assert OldName(keys[i + 1]) in d && forall k :: 0 <= k <= i + 1 ==> !fails(keys[k]);
        }
      }
      if i: nat :| i < |keys| && OldName(keys[i]) in d && forall k :: 0 <= k <= i ==> !fails(keys[k]) {
        assert !fails(keys[0]);
        if i > 0 {
          assert keys[1..][i - 1] == keys[i];
          assert forall k :: 0 <= k <= i - 1 ==> !fails(keys[1..][k]);
        }
      }
    }
  }

  /** No old key is left, the marker says that `n` records were migrated, and each of the six
      single records can be read. */
  predicate LeftBehind(c: RecordCodec, f: Formats, after: Disk, n: nat, clock: Clock, k: OldKey) {
    && OldName(k) !in after
    && Held(after, MARKER_KEY) ==
         Some(Text(f.writeMarker(Marker(1, true, n % 0x1_0000_0000, clock.migratedAt), clock.at(n))))
    && SinglesLoad(c, after)
  }

  lemma DueRunConverts(c: RecordCodec, f: Formats, d: Disk, clock: Clock, x: Faults)
    requires AnyOld(d) && MarkerDone(f, Held(d, MARKER_KEY)) == Ok(false) && Run(c, f, d, clock, x).ok
    ensures Convert(c, f, d, Whole(f, d), clock, x).ok
    ensures Run(c, f, d, clock, x).disks == Convert(c, f, d, Whole(f, d), clock, x).disks
  {
    FaultyPlanIsPart(f, SnapshotOf(d), STEPS, x.move);
  }

  /** After a successful migration, whatever the store did, as many records were migrated as
      were planned. */
  lemma SuccessMeans(c: RecordCodec, f: Formats, d: Disk, clock: Clock, x: Faults, k: OldKey)
    requires AnyOld(d) && MarkerDone(f, Held(d, MARKER_KEY)) == Ok(false) && Run(c, f, d, clock, x).ok
    ensures LeftBehind(c, f, Last(d, Run(c, f, d, clock, x).disks), |Whole(f, d).records|, clock, k)
  {
    DueRunConverts(c, f, d, clock, x);
    SuccessfulConvert(c, f, d, Whole(f, d), clock, x);
    AfterCleaning(c, f, Written(c, d, Whole(f, d).records, clock.at), Whole(f, d).records, clock, k);
  }

  lemma SuccessfulConvert(c: RecordCodec, f: Formats, d: Disk, p: Planned, clock: Clock, x: Faults)
    requires Convert(c, f, d, p, clock, x).ok
    ensures var d1 := Written(c, d, p.records, clock.at);
            && SinglesLoad(c, d1)
            && Last(d, Convert(c, f, d, p, clock, x).disks) == Marked(f, d1, p.records, clock) - Names(OLD_KEYS)
  {
    var d1 := Written(c, d, p.records, clock.at);
    var d2 := Marked(f, d1, p.records, clock);
    SinglesAreChecked(c, d1);
    FinishEnds(d2, Works, x);
    assert OLD_KEYS[..Durable(x.remove, |OLD_KEYS|)] == OLD_KEYS;
    LastIsLast(d, d2, WriteTrace(c, d, p.records[..Durable(x.save, |p.records|)], clock.at), Finish(d2, Works, x).disks);
  }

  lemma AfterCleaning(c: RecordCodec, f: Formats, d1: Disk, records: seq<Record>, clock: Clock, k: OldKey)
    requires SinglesLoad(c, d1)
    ensures LeftBehind(c, f, Marked(f, d1, records, clock) - Names(OLD_KEYS), |records|, clock, k)
  {
    var d2 := Marked(f, d1, records, clock);
    EveryOldName(OldName(k));
    MarkerIsNotOld();
    SinglesAreKept(c, d1, d2);
  }

  lemma SinglesAreKept(c: RecordCodec, d1: Disk, d2: Disk)
    requires SinglesLoad(c, d1) && forall key :: key != MARKER_KEY ==> Held(d2, key) == Held(d1, key)
    ensures SinglesLoad(c, d2 - Names(OLD_KEYS))
  {
    SlotIsKept(c, d1, d2, VehicleTask);
    SlotIsKept(c, d1, d2, Inventory);
    SlotIsKept(c, d1, d2, Consent);
    SlotIsKept(c, d1, d2, Execution);
    SlotIsKept(c, d1, d2, OutboxMeta);
    SlotIsKept(c, d1, d2, Policy);
  }

  lemma SlotIsKept(c: RecordCodec, d1: Disk, d2: Disk, s: Slot)
    requires forall key :: key != MARKER_KEY ==> Held(d2, key) == Held(d1, key)
    ensures Loaded(c, s, d2 - Names(OLD_KEYS)) == Loaded(c, s, d1)
  {
    MarkerIsNoRecord(s);
    SlotIsNotOld(s);
    LoadedAfterCleaning(c, d1, d2, s, Names(OLD_KEYS));
  }

  /** The nine old keys, by name. */
  lemma OldKeysAreNamed()
    ensures OldName(OVehicleTask) == "ota.vehicle_task" && OldName(OInventory) == "ota.inventory"
    ensures OldName(OConsent) == "ota.consent" && OldName(ODownloads) == "ota.downloads"
    ensures OldName(OExecution) == "ota.execution" && OldName(OEventOutbox) == "ota.event_outbox"
    ensures OldName(OControls) == "ota.controls" && OldName(OPolicy) == "ota.policy"
    ensures OldName(OLogJobs) == "ota.log_jobs"
  {
  }

  /** A marker without the member is not a completed one. */
  lemma MarkerTells(j: Json)
    requires MarkerFromJson(j).Ok?
    ensures j.JObj?
    ensures MarkerFromJson(j).value.completed <==> "completed" in j.fields && j.fields["completed"] == JBool(true)
  {
  }
}
