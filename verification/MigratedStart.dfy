/** What the orchestrator makes of a store that has just been migrated. */
module MigratedStart {
  import opened Wrappers
  import opened Bytes
  import opened CrashSchedules
  import Json
  import Cloud = CloudState
  import RecordText
  import Store = CloudStateStore
  import Durable = DurableStore
  import Legacy = LegacyRecords
  import Formats = MigrationFormats
  import Migration = StateMigrationSpec
  import MigrationCrashes
  import O = OrchestratorState
  import Spec = OrchestratorSpec
  import Invariants = OrchestratorInvariants
  import History = OrchestratorHistory
  import Sessions = OrchestratorSessions
  import Permits = OrchestratorPermits
  import Counters = OrchestratorCounters

  // -------------------------------------------------------- a migrated task has no snapshot

  predicate NoSnapshot(r: Cloud.Record) {
    r.VehicleTaskRecord? ==> r.taskSnapshotPbHex == []
  }

  predicate NoSnapshots(records: seq<Cloud.Record>) {
    forall r :: r in records ==> NoSnapshot(r)
  }

  ghost predicate Yields(from: Json.Json -> Result<Cloud.Record>) {
    forall j :: from(j).Ok? ==> NoSnapshot(from(j).value)
  }

  lemma EntriesHaveNoSnapshot(t: Json.JsonText, j: Json.Json, from: Json.Json -> Result<Cloud.Record>)
    requires Yields(from) && Legacy.Entries(t, j, from).Ok?
    ensures NoSnapshots(Legacy.Entries(t, j, from).value)
  {
    var items := Json.Elements(t, Json.At(j, "entries").value);
    var records := Legacy.Entries(t, j, from).value;
    forall r | r in records
      ensures NoSnapshot(r)
    {
      var i :| 0 <= i < |records| && records[i] == r;
      assert from(items[i]) == Ok(r);
    }
  }

  lemma TaskHasNoSnapshot(j: Json.Json)
    requires Legacy.VehicleTaskFrom(j).Ok?
    ensures Legacy.VehicleTaskFrom(j).value.VehicleTaskRecord? && NoSnapshot(Legacy.VehicleTaskFrom(j).value)
  {
  }

  lemma DownloadsYield()
    ensures Yields(Legacy.DownloadFrom)
  {
  }

  lemma EventsYield()
    ensures Yields(Legacy.EventFrom)
  {
  }

  lemma ControlsYield()
    ensures Yields(Legacy.ControlFrom)
  {
  }

  lemma LogJobsYield()
    ensures Yields(Legacy.LogJobFrom)
  {
  }

  lemma SinglesYield(j: Json.Json)
    ensures Legacy.InventoryFrom(j).Ok? ==> NoSnapshot(Legacy.InventoryFrom(j).value)
    ensures Legacy.ConsentFrom(j).Ok? ==> NoSnapshot(Legacy.ConsentFrom(j).value)
    ensures Legacy.PolicyFrom(j).Ok? ==> NoSnapshot(Legacy.PolicyFrom(j).value)
  {
  }

  lemma ExecutionYields(j: Json.Json)
    requires Legacy.ExecutionFrom(j).Ok?
    ensures NoSnapshot(Legacy.ExecutionFrom(j).value.0)
  {
  }

  lemma OutboxYields(t: Json.JsonText, j: Json.Json)
    requires Legacy.OutboxFrom(t, j).Ok?
    ensures NoSnapshots(Legacy.OutboxFrom(t, j).value.1)
  {
    EventsYield();
    EntriesHaveNoSnapshot(t, j, Legacy.EventFrom);
  }

  lemma ConvertedHaveNoSnapshot(t: Json.JsonText, key: Legacy.OldKey, b: ByteString)
    requires Legacy.RecordsFrom(t, key, b).Ok?
    ensures NoSnapshots(Legacy.RecordsFrom(t, key, b).value)
  {
    var j := Legacy.LegacyJson(t, b).value;
    match key
    case OVehicleTask => TaskHasNoSnapshot(j);
    case ODownloads =>
      DownloadsYield();
      EntriesHaveNoSnapshot(t, j, Legacy.DownloadFrom);
    case OExecution => ExecutionYields(j);
    case OEventOutbox => OutboxYields(t, j);
    case OControls =>
      ControlsYield();
      EntriesHaveNoSnapshot(t, j, Legacy.ControlFrom);
    case OLogJobs =>
      LogJobsYield();
      EntriesHaveNoSnapshot(t, j, Legacy.LogJobFrom);
    case _ => SinglesYield(j);
  }

  lemma ConvertedTaskIsThere(t: Json.JsonText, b: ByteString)
    requires Legacy.RecordsFrom(t, Legacy.OVehicleTask, b).Ok?
    ensures var records := Legacy.RecordsFrom(t, Legacy.OVehicleTask, b).value;
            records != [] && records[0].VehicleTaskRecord?
  {
    TaskHasNoSnapshot(Legacy.LegacyJson(t, b).value);
  }

  lemma StepHasNoSnapshot(t: Json.JsonText, s: Migration.Snapshot, step: Migration.Step)
    ensures NoSnapshots(Migration.StepPlan(Formats.FormatsOf(t), s, step, Migration.NO_FAULTS.move).records)
  {
    if step.Move? && Migration.HeldIn(s, step.key).Some? && Migration.HeldIn(s, step.key).value.Text? {
      var b := Migration.HeldIn(s, step.key).value.bytes;
      if Legacy.RecordsFrom(t, step.key, b).Ok? {
        ConvertedHaveNoSnapshot(t, step.key, b);
      }
    } else if step.Count? {
      CountersHaveNoSnapshot(t, s);
    }
  }

  lemma CountersHaveNoSnapshot(t: Json.JsonText, s: Migration.Snapshot)
    ensures NoSnapshot(Migration.Counters(Formats.FormatsOf(t), s))
  {
  }

  lemma {:induction false} PlannedHaveNoSnapshot(t: Json.JsonText, s: Migration.Snapshot, steps: seq<Migration.Step>)
    ensures NoSnapshots(Migration.PlanOf(Formats.FormatsOf(t), s, steps, Migration.NO_FAULTS.move).records)
    decreases |steps|
  {
    if steps != [] {
      StepHasNoSnapshot(t, s, steps[0]);
      PlannedHaveNoSnapshot(t, s, steps[1..]);
    }
  }

  lemma OldTaskIsPlanned(t: Json.JsonText, d: Durable.Disk)
    requires Migration.Held(d, Migration.OldName(Legacy.OVehicleTask)).Some?
    requires MigrationCrashes.Whole(Formats.FormatsOf(t), d).error.None?
    ensures var records := MigrationCrashes.Whole(Formats.FormatsOf(t), d).records;
            records != [] && records[0].VehicleTaskRecord?
  {
    var f, s := Formats.FormatsOf(t), Migration.SnapshotOf(d);
    var first := Migration.StepPlan(f, s, Migration.Move(Legacy.OVehicleTask), Migration.NO_FAULTS.move);
    assert Migration.STEPS[0] == Migration.Move(Legacy.OVehicleTask);
    assert MigrationCrashes.Whole(f, d)
        == Migration.Then(first, Migration.PlanOf(f, s, Migration.STEPS[1..], Migration.NO_FAULTS.move));
    assert s.vehicleTask.value.Text?;
    ConvertedTaskIsThere(t, s.vehicleTask.value.bytes);
  }

  /** After a successful migration of an old vehicle task the new record is there, without the
      task itself. */
  lemma MigratedTaskHasNoSnapshot(
    c: RecordText.RecordCodec, t: Json.JsonText, d: Durable.Disk, clock: Migration.Clock, x: Migration.Faults)
    requires RecordText.Lawful(c) && Migration.Held(d, Migration.OldName(Legacy.OVehicleTask)).Some?
    requires Migration.MarkerDone(Formats.FormatsOf(t), Migration.Held(d, Cloud.MARKER_KEY)) == Ok(false)
    requires Migration.Run(c, Formats.FormatsOf(t), d, clock, x).ok
    requires forall r :: r in MigrationCrashes.Whole(Formats.FormatsOf(t), d).records ==> c.fits(r)
    ensures var after := Last(d, Migration.Run(c, Formats.FormatsOf(t), d, clock, x).disks);
            var loaded := Store.Loaded(c, Cloud.VehicleTask, after);
            && loaded.Ok? && loaded.value.Some? && loaded.value.value.VehicleTaskRecord?
            && loaded.value.value.taskSnapshotPbHex == []
  {
    var f, s := Formats.FormatsOf(t), Migration.SnapshotOf(d);
    var records := MigrationCrashes.Whole(f, d).records;
    OldTaskIsListed(d);
    SuccessfulPlanIsWhole(c, f, d, clock, x);
    OldTaskIsPlanned(t, d);
    PlannedHaveNoSnapshot(t, s, Migration.STEPS);
    MigrationCrashes.MigratedRecordsLoad(c, f, d, clock, x, Cloud.VehicleTask);
    LastTaskHasNoSnapshot(records);
  }

  lemma LastTaskHasNoSnapshot(records: seq<Cloud.Record>)
    requires records != [] && records[0].VehicleTaskRecord? && NoSnapshots(records)
    ensures var r := MigrationCrashes.LastFor(records, Cloud.VehicleTask);
            r.Some? && r.value.VehicleTaskRecord? && r.value.taskSnapshotPbHex == []
  {
    assert Cloud.SlotOf(records[0]) == Cloud.VehicleTask;
  }

  lemma SuccessfulPlanIsWhole(
    c: RecordText.RecordCodec, f: Formats.Formats, d: Durable.Disk, clock: Migration.Clock, x: Migration.Faults)
    requires Migration.AnyOld(d) && Migration.MarkerDone(f, Migration.Held(d, Cloud.MARKER_KEY)) == Ok(false)
    requires Migration.Run(c, f, d, clock, x).ok
    ensures MigrationCrashes.Whole(f, d).error.None?
  {
    MigrationCrashes.FaultyPlanIsPart(f, Migration.SnapshotOf(d), Migration.STEPS, x.move);
  }

  lemma OldTaskIsListed(d: Durable.Disk)
    requires Migration.Held(d, Migration.OldName(Legacy.OVehicleTask)).Some?
    ensures Migration.AnyOld(d)
  {
    assert Migration.OLD_KEYS[0] == Legacy.OVehicleTask;
  }

  // ------------------------------------------------------------- and the counters start over

  /** The task record as the orchestrator reads it; an empty text is no snapshot. */
  function TaskRecOf(r: Cloud.Record, task: ByteString -> O.Task, state: ByteString -> O.VtState): O.VehicleTaskRec
    requires r.VehicleTaskRecord?
  {
    O.VehicleTaskRec(if r.taskSnapshotPbHex == [] then None else Some(task(r.taskSnapshotPbHex)), state(r.vehicleTaskState))
  }

  /** The first process on a migrated task starts from nothing, whatever counters were migrated
      with it. Whatever it does until its first permit, the execution it then stores puts the
      accepted number back to 0, and the next number back to 1 unless an emit got through
      before; so the migrated number survives if and only if one did, or it was 1. */
  lemma MigrationRestartsCounters(
    c: RecordText.RecordCodec, t: Json.JsonText, d: Durable.Disk, clock: Migration.Clock, x: Migration.Faults,
    task: ByteString -> O.Task, state: ByteString -> O.VtState, w: Spec.World, ops: seq<History.Op>, e: O.StepEnv)
    requires RecordText.Lawful(c) && Migration.Held(d, Migration.OldName(Legacy.OVehicleTask)).Some?
    requires Migration.MarkerDone(Formats.FormatsOf(t), Migration.Held(d, Cloud.MARKER_KEY)) == Ok(false)
    requires Migration.Run(c, Formats.FormatsOf(t), d, clock, x).ok
    requires forall r :: r in MigrationCrashes.Whole(Formats.FormatsOf(t), d).records ==> c.fits(r)
    requires var after := Last(d, Migration.Run(c, Formats.FormatsOf(t), d, clock, x).disks);
             var loaded := Store.Loaded(c, Cloud.VehicleTask, after);
             loaded.Ok? && loaded.value.Some? && loaded.value.value.VehicleTaskRecord? ==>
               w.disk.task == Some(TaskRecOf(loaded.value.value, task, state))
    requires Counters.TakesNoPermit(Invariants.Restart(w), ops)
    requires Permits.Grants(Sessions.PerformAll(Invariants.Restart(w), ops), e)
    ensures Spec.LoadFromStore(w.disk) == Spec.FRESH
    ensures var u := Sessions.PerformAll(Invariants.Restart(w), ops);
            var meta, emitted := O.MetaOf(Spec.Step(u, e).disk.meta), Counters.EmitsThrough(Invariants.Restart(w), ops);
            && meta == O.MetaRec(if emitted then O.MetaOf(u.disk.meta).next else 1, 0)
            && (meta.next == O.MetaOf(u.disk.meta).next <==> O.MetaOf(w.disk.meta).next == 1 || emitted)
  {
    MigratedTaskHasNoSnapshot(c, t, d, clock, x);
    Counters.FirstExecutionKeepsNumberIff(w, ops, e);
  }
}
