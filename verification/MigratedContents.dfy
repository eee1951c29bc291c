/** What a successful migration leaves in each new key, told on the members of the old JSON. */
module MigratedContents {
  import opened Wrappers
  import opened Bytes
  import opened CrashSchedules
  import opened Envelope
  import opened Json
  import opened CloudState
  import opened RecordText
  import opened DurableStore
  import opened CloudStateStore
  import opened LegacyRevision
  import opened LegacyRecords
  import opened MigrationFormats
  import opened StateMigrationSpec
  import opened MigrationCrashes

  // -------------------------------------------------------------------- a successful run

  /** A run that converts a disk with old keys and no completed marker, and returns. */
  ghost predicate Converts(c: RecordCodec, t: JsonText, d: Disk, clock: Clock, x: Faults) {
    && Lawful(c) && AnyOld(d) && MarkerDone(FormatsOf(t), Held(d, MARKER_KEY)) == Ok(false)
    && Run(c, FormatsOf(t), d, clock, x).ok
    && forall r :: r in Whole(FormatsOf(t), d).records ==> c.fits(r)
  }

  /** The record of a slot after the run. */
  function LoadedAfter(c: RecordCodec, t: JsonText, d: Disk, clock: Clock, x: Faults, s: Slot): Result<Option<Record>> {
    Loaded(c, s, Last(d, Run(c, FormatsOf(t), d, clock, x).disks))
  }

  /** A record is there, and it is one of those described. */
  predicate Carried(loaded: Result<Option<Record>>, described: Record -> bool) {
    loaded.Ok? && loaded.value.Some? && described(loaded.value.value)
  }

  /** The old key holds a text of version 1 whose payload parses to `j`. */
  ghost predicate Holding(t: JsonText, d: Disk, key: OldKey, j: Json) {
    && OldName(key) in d && d[OldName(key)].Text?
    && var b := d[OldName(key)].bytes;
       ParseHeader(b).Ok? && ParseHeader(b).value.schemaVersion == 1
       && t.parse(ExtractPayload(b, ParseHeader(b).value)) == Some(j)
  }

  lemma HoldingIsRead(t: JsonText, d: Disk, key: OldKey, j: Json)
    requires Holding(t, d, key, j)
    ensures Held(d, OldName(key)) == Some(Text(d[OldName(key)].bytes))
    ensures LegacyJson(t, d[OldName(key)].bytes) == Ok(j)
  {
  }

  // ------------------------------------------------------- each slot has one step of the run

  function StepFor(kind: RecordKind): Step {
    match kind
    case KVehicleTask => Move(OVehicleTask)
    case KInventory => Move(OInventory)
    case KConsent => Move(OConsent)
    case KDownload => Move(ODownloads)
    case KExecution => Move(OExecution)
    case KOutboxMeta => Count
    case KEvent => Move(OEventOutbox)
    case KControl => Move(OControls)
    case KPolicy => Move(OPolicy)
    case KLogJob => Move(OLogJobs)
  }

  ghost predicate AllFor(records: seq<Record>, step: Step) {
    forall r :: r in records ==> StepFor(KindOf(SlotOf(r))) == step
  }

  ghost predicate YieldsFor(from: Json -> Result<Record>, step: Step) {
    forall j :: from(j).Ok? ==> StepFor(KindOf(SlotOf(from(j).value))) == step
  }

  lemma EntriesAreFor(t: JsonText, j: Json, from: Json -> Result<Record>, step: Step)
    requires YieldsFor(from, step) && Entries(t, j, from).Ok?
    ensures AllFor(Entries(t, j, from).value, step)
  {
    var items := Elements(t, At(j, "entries").value);
    var records := Entries(t, j, from).value;
    forall r | r in records
      ensures StepFor(KindOf(SlotOf(r))) == step
    {
      var i :| 0 <= i < |records| && records[i] == r;
      assert from(items[i]) == Ok(r);
    }
  }

  lemma DownloadsYield()
    ensures YieldsFor(DownloadFrom, Move(ODownloads))
  {
  }

  lemma EventsYield()
    ensures YieldsFor(EventFrom, Move(OEventOutbox))
  {
  }

  lemma ControlRecords(j: Json)
    ensures ControlFrom(j).Ok? ==> ControlFrom(j).value.ControlRecord?
  {
  }

  lemma ControlSlots(r: Record)
    requires r.ControlRecord?
    ensures StepFor(KindOf(SlotOf(r))) == Move(OControls)
  {
  }

  lemma ControlYields(j: Json)
    ensures ControlFrom(j).Ok? ==> StepFor(KindOf(SlotOf(ControlFrom(j).value))) == Move(OControls)
  {
    ControlRecords(j);
    if ControlFrom(j).Ok? {
      ControlSlots(ControlFrom(j).value);
    }
  }

  lemma ControlsYield()
    ensures YieldsFor(ControlFrom, Move(OControls))
  {
    forall j
      ensures ControlFrom(j).Ok? ==> StepFor(KindOf(SlotOf(ControlFrom(j).value))) == Move(OControls)
    {
      ControlYields(j);
    }
  }

  lemma LogJobsYield()
    ensures YieldsFor(LogJobFrom, Move(OLogJobs))
  {
  }

  lemma SinglesAreFor(t: JsonText, key: OldKey, b: ByteString)
    requires RecordsFrom(t, key, b).Ok? && !HasItems(key)
    ensures AllFor(RecordsFrom(t, key, b).value, Move(key))
  {
    FixedIsCarried(t, key, b);
    FixedInSlot(key, LegacyJson(t, b).value, RecordsFrom(t, key, b).value[0]);
  }

  lemma ConvertedAreFor(t: JsonText, key: OldKey, b: ByteString)
    requires RecordsFrom(t, key, b).Ok?
    ensures AllFor(RecordsFrom(t, key, b).value, Move(key))
  {
    var j := LegacyJson(t, b).value;
    match key
    case ODownloads =>
      DownloadsYield();
      EntriesAreFor(t, j, DownloadFrom, Move(ODownloads));
    case OEventOutbox =>
      EventsYield();
      EntriesAreFor(t, j, EventFrom, Move(OEventOutbox));
    case OControls =>
      ControlsYield();
      EntriesAreFor(t, j, ControlFrom, Move(OControls));
    case OLogJobs =>
      LogJobsYield();
      EntriesAreFor(t, j, LogJobFrom, Move(OLogJobs));
    case _ => SinglesAreFor(t, key, b);
  }

  lemma CountersAre(t: JsonText, key: OldKey, b: ByteString)
    requires CountersFrom(t, key, b).Ok?
    ensures CountersFrom(t, key, b).value.OutboxMetaRecord?
  {
  }

  lemma CountersAreFor(t: JsonText, s: Snapshot)
    ensures Counters(FormatsOf(t), s).OutboxMetaRecord?
  {
    if s.execution.Some? && s.execution.value.Text? && CountersFrom(t, OExecution, s.execution.value.bytes).Ok? {
      CountersAre(t, OExecution, s.execution.value.bytes);
    }
    if s.events.Some? && s.events.value.Text? && CountersFrom(t, OEventOutbox, s.events.value.bytes).Ok? {
      CountersAre(t, OEventOutbox, s.events.value.bytes);
    }
  }

  function Planning(t: JsonText, d: Disk, step: Step): Planned {
    StepPlan(FormatsOf(t), SnapshotOf(d), step, NO_FAULTS.move)
  }

  function PlanningAll(t: JsonText, d: Disk, steps: seq<Step>): Planned {
    PlanOf(FormatsOf(t), SnapshotOf(d), steps, NO_FAULTS.move)
  }

  lemma HeldInSnapshot(d: Disk, key: OldKey)
    ensures HeldIn(SnapshotOf(d), key) == Held(d, OldName(key))
  {
  }

  lemma PlannedAreFor(t: JsonText, d: Disk, step: Step)
    ensures AllFor(Planning(t, d, step).records, step)
  {
    match step
    case Count => CountersAreFor(t, SnapshotOf(d));
    case Move(key) =>
      HeldInSnapshot(d, key);
      var held := Held(d, OldName(key));
      if held.Some? && held.value.Text? && RecordsFrom(t, key, held.value.bytes).Ok? {
        ConvertedAreFor(t, key, held.value.bytes);
      }
  }

  lemma LastOfLonger(records: seq<Record>, r: Record, s: Slot)
    ensures LastFor(records + [r], s) == if SlotOf(r) == s then Some(r) else LastFor(records, s)
  {
    assert (records + [r])[..|records|] == records;
  }

  lemma {:induction false} LastOfJoined(a: seq<Record>, b: seq<Record>, s: Slot)
    ensures LastFor(a + b, s) == if LastFor(b, s).Some? then LastFor(b, s) else LastFor(a, s)
    decreases |b|
  {
    var n := |b| - 1;
    if n < 0 {
      assert a + b == a;
    } else {
      assert a + b == a + b[..n] + [b[n]] && b == b[..n] + [b[n]];
      LastOfJoined(a, b[..n], s);
      LastOfLonger(a + b[..n], b[n], s);
      LastOfLonger(b[..n], b[n], s);
    }
  }

  lemma OtherStepHasNone(records: seq<Record>, step: Step, s: Slot)
    requires AllFor(records, step) && StepFor(KindOf(s)) != step
    ensures LastFor(records, s).None?
  {
  }

  ghost predicate Distinct(steps: seq<Step>) {
    forall i, j :: 0 <= i < j < |steps| ==> steps[i] != steps[j]
  }

  lemma {:induction false} OneStepDecides(t: JsonText, d: Disk, steps: seq<Step>, s: Slot)
    requires PlanningAll(t, d, steps).error.None? && Distinct(steps)
    ensures LastFor(PlanningAll(t, d, steps).records, s)
         == if StepFor(KindOf(s)) in steps then LastFor(Planning(t, d, StepFor(KindOf(s))).records, s) else None
    ensures forall step :: step in steps ==> Planning(t, d, step).error.None?
    decreases |steps|
  {
    if steps != [] {
      var rest := steps[1..];
      assert Distinct(rest) && steps[0] !in rest && (forall step :: step in steps <==> step == steps[0] || step in rest);
      OneStepDecides(t, d, rest, s);
      PlannedAreFor(t, d, steps[0]);
      LastOfJoined(Planning(t, d, steps[0]).records, PlanningAll(t, d, rest).records, s);
      if StepFor(KindOf(s)) != steps[0] {
        OtherStepHasNone(Planning(t, d, steps[0]).records, steps[0], s);
      }
    }
  }

  lemma EveryStepIsListed(kind: RecordKind)
    ensures StepFor(kind) in STEPS
  {
    var i := match kind
      case KVehicleTask => 0 case KInventory => 1 case KConsent => 2 case KDownload => 3 case KExecution => 4
      case KEvent => 5 case KOutboxMeta => 6 case KControl => 7 case KPolicy => 8 case KLogJob => 9;
    assert STEPS[i] == StepFor(kind);
  }

  lemma StepsAreDistinct()
    ensures Distinct(STEPS)
  {
  }

  /** After the run a slot holds the last record its own step planned for it, or what it held. */
  lemma StepDecidesSlot(c: RecordCodec, t: JsonText, d: Disk, clock: Clock, x: Faults, s: Slot)
    requires Converts(c, t, d, clock, x)
    ensures Planning(t, d, StepFor(KindOf(s))).error.None?
    ensures var last := LastFor(Planning(t, d, StepFor(KindOf(s))).records, s);
            LoadedAfter(c, t, d, clock, x, s) == if last.Some? then Ok(last) else Loaded(c, s, d)
  {
    var f := FormatsOf(t);
    MigratedRecordsLoad(c, f, d, clock, x, s);
    FaultyPlanIsPart(f, SnapshotOf(d), STEPS, x.move);
    assert Whole(f, d) == PlanningAll(t, d, STEPS);
    EveryStepIsListed(KindOf(s));
    StepsAreDistinct();
    OneStepDecides(t, d, STEPS, s);
  }

  /** The records of an old key that is there. */
  lemma MovedRecords(c: RecordCodec, t: JsonText, d: Disk, clock: Clock, x: Faults, s: Slot, key: OldKey, j: Json)
    requires Converts(c, t, d, clock, x) && Holding(t, d, key, j) && StepFor(KindOf(s)) == Move(key)
    ensures var b := d[OldName(key)].bytes;
            && LegacyJson(t, b) == Ok(j) && RecordsFrom(t, key, b).Ok?
            && var last := LastFor(RecordsFrom(t, key, b).value, s);
               LoadedAfter(c, t, d, clock, x, s) == if last.Some? then Ok(last) else Loaded(c, s, d)
  {
    StepDecidesSlot(c, t, d, clock, x, s);
    HeldInSnapshot(d, key);
    HoldingIsRead(t, d, key, j);
  }

  lemma MovedIsCarried(c: RecordCodec, t: JsonText, d: Disk, clock: Clock, x: Faults, s: Slot, key: OldKey, j: Json,
                       described: Record -> bool)
    requires Converts(c, t, d, clock, x) && Holding(t, d, key, j) && StepFor(KindOf(s)) == Move(key)
    requires var records := RecordsFrom(t, key, d[OldName(key)].bytes);
             records.Ok? ==> LastFor(records.value, s).Some? && described(LastFor(records.value, s).value)
    ensures Carried(LoadedAfter(c, t, d, clock, x, s), described)
  {
    MovedRecords(c, t, d, clock, x, s, key, j);
  }

  /** An old key that is not there changes none of its slots. */
  lemma AbsentKeyChangesNothing(c: RecordCodec, t: JsonText, d: Disk, clock: Clock, x: Faults, s: Slot, key: OldKey)
    requires Converts(c, t, d, clock, x) && OldName(key) !in d && StepFor(KindOf(s)) == Move(key)
    ensures LoadedAfter(c, t, d, clock, x, s) == Loaded(c, s, d)
  {
    StepDecidesSlot(c, t, d, clock, x, s);
    HeldInSnapshot(d, key);
  }

  // ------------------------------------------------------------------- keys with one record

  /** The text of a member, as the number it was converted to. */
  predicate NumberedBy(j: Json, key: string, n: U64) {
    StrAt(j, key).Ok? && RevisionToUint64(StrAt(j, key).value) == n
  }

  predicate TaskCarried(j: Json, r: Record) {
    && r.VehicleTaskRecord?
    && StrAt(j, "vehicleTaskId") == Ok(r.vehicleTaskId) && NumberedBy(j, "taskRevision", r.taskRevision)
    && StrAt(j, "targetBaselineId") == Ok(r.targetBaselineCode) && StrAt(j, "vehicleTaskState") == Ok(r.vehicleTaskState)
    && I64At(j, "frozenAtMs") == Ok(r.frozenAtMs) && r.taskSnapshotPbHex == []
    && StrOr(j, "localDispositionResult", []) == Ok(r.localDispositionResult)
    && BoolOr(j, "superseded", false) == Ok(r.superseded)
  }

  predicate InventoryCarried(j: Json, r: Record) {
    && r.InventoryRecord?
    && StrAt(j, "mode") == Ok(r.mode) && NumberedBy(j, "inventoryRevision", r.inventoryRevision)
    && StrAt(j, "algorithm") == Ok(r.algorithm) && StrAt(j, "ecuListDigest") == Ok(r.ecuListDigestHex)
    && r.baselineCode == [] && r.fotaMasterVersion == [] && I64At(j, "collectedAtMs") == Ok(r.collectedAtMs)
    && r.requestPbHex == [] && BoolOr(j, "fullRequired", false) == Ok(r.fullRequired)
  }

  predicate ConsentCarried(j: Json, r: Record) {
    && r.ConsentRecord?
    && StrAt(j, "vehicleTaskId") == Ok(r.vehicleTaskId) && StrAt(j, "effectiveStatus") == Ok(r.effectiveStatus)
    && StrAt(j, "receiptId") == Ok(r.receiptId) && I64At(j, "receiptExpiresAtMs") == Ok(r.receiptExpiresAtMs)
    && StrOr(j, "termsId", []) == Ok(r.termsId) && StrOr(j, "termsVersion", []) == Ok(r.termsVersion)
    && r.termsDigestHex == [] && r.termsAlgorithm == [] && r.consentTimeMs == 0 && r.channel == []
  }

  predicate ExecutionCarried(j: Json, r: Record) {
    && r.ExecutionRecord?
    && StrAt(j, "vehicleTaskId") == Ok(r.vehicleTaskId) && StrAt(j, "executionId") == Ok(r.executionId)
    && U32At(j, "attemptNo") == Ok(r.attemptNo) && StrAt(j, "permitId") == Ok(r.permitId)
    && StrAt(j, "permitToken") == Ok(r.permitToken)
    && NumberedBy(j, "controlRevision", r.executionControlRevision) && I64At(j, "validUntilMs") == Ok(r.validUntilMs)
    && StrAt(j, "executionState") == Ok(r.executionState)
    && StrOr(j, "installPlanVersion", []) == Ok(r.installPlanVersion)
    && r.checkpointPbHex == [] && r.offlinePolicyPbHex == [] && r.timeoutPolicyPbHex == []
  }

  predicate PolicyCarried(j: Json, r: Record) {
    && r.PolicyRecord?
    && StrAt(j, "basePreferenceVersion") == Ok(r.basePreferenceVersion)
    && StrAt(j, "preferenceVersion") == Ok(r.preferenceVersion) && BoolOr(j, "conflict", false) == Ok(r.conflict)
    && r.localPolicyVersion == [] && r.effectivePolicyPbHex == [] && r.effectiveAtMs == 0
  }

  predicate FixedCarried(key: OldKey, j: Json, r: Record) {
    match key
    case OVehicleTask => TaskCarried(j, r)
    case OInventory => InventoryCarried(j, r)
    case OConsent => ConsentCarried(j, r)
    case OExecution => ExecutionCarried(j, r)
    case OPolicy => PolicyCarried(j, r)
    case _ => false
  }

  lemma OneIsLast(r: Record)
    ensures LastFor([r], SlotOf(r)) == Some(r)
  {
    assert [r][|[r]| - 1] == r;
  }

  lemma TaskRevisionIsCarried(j: Json)
    ensures VehicleTaskFrom(j).Ok? ==> NumberedBy(j, "taskRevision", VehicleTaskFrom(j).value.taskRevision)
  {
  }

  lemma TaskIsCarried(j: Json)
    ensures VehicleTaskFrom(j).Ok? ==> TaskCarried(j, VehicleTaskFrom(j).value)
  {
    TaskRevisionIsCarried(j);
  }

  lemma InventoryIsCarried(j: Json)
    ensures InventoryFrom(j).Ok? ==> InventoryCarried(j, InventoryFrom(j).value)
  {
  }

  lemma ConsentIsCarried(j: Json)
    ensures ConsentFrom(j).Ok? ==> ConsentCarried(j, ConsentFrom(j).value)
  {
  }

  lemma ExecutionIsCarried(j: Json)
    ensures ExecutionFrom(j).Ok? ==> ExecutionCarried(j, ExecutionFrom(j).value.0)
    ensures ExecutionFrom(j).Ok? ==> CountersCarried(j, ExecutionFrom(j).value.1)
  {
  }

  lemma PolicyIsCarried(j: Json)
    ensures PolicyFrom(j).Ok? ==> PolicyCarried(j, PolicyFrom(j).value)
  {
  }

  lemma FixedIsCarried(t: JsonText, key: OldKey, b: ByteString)
    requires RecordsFrom(t, key, b).Ok? && !HasItems(key)
    ensures var records := RecordsFrom(t, key, b).value;
            |records| == 1 && FixedCarried(key, LegacyJson(t, b).value, records[0])
  {
    var j := LegacyJson(t, b).value;
    match key
    case OVehicleTask => TaskIsCarried(j);
    case OInventory => InventoryIsCarried(j);
    case OConsent => ConsentIsCarried(j);
    case OExecution => ExecutionIsCarried(j);
    case OPolicy => PolicyIsCarried(j);
    case _ =>
  }

  /** The one slot of an old key with one record. */
  function FixedSlot(key: OldKey): Slot
    requires !HasItems(key)
  {
    match key
    case OVehicleTask => VehicleTask
    case OInventory => Inventory
    case OConsent => Consent
    case OExecution => Execution
    case OPolicy => Policy
  }

  lemma FixedInSlot(key: OldKey, j: Json, r: Record)
    requires !HasItems(key) && FixedCarried(key, j, r)
    ensures SlotOf(r) == FixedSlot(key) && StepFor(KindOf(FixedSlot(key))) == Move(key)
  {
  }

  lemma FixedIsLast(t: JsonText, d: Disk, key: OldKey, j: Json)
    requires Holding(t, d, key, j) && !HasItems(key)
    ensures StepFor(KindOf(FixedSlot(key))) == Move(key)
    ensures var records := RecordsFrom(t, key, d[OldName(key)].bytes);
            records.Ok? ==>
              LastFor(records.value, FixedSlot(key)).Some? && FixedCarried(key, j, LastFor(records.value, FixedSlot(key)).value)
  {
    var b := d[OldName(key)].bytes;
    HoldingIsRead(t, d, key, j);
    if RecordsFrom(t, key, b).Ok? {
      FixedIsCarried(t, key, b);
      var r := RecordsFrom(t, key, b).value[0];
      FixedInSlot(key, j, r);
      assert RecordsFrom(t, key, b).value == [r];
      OneIsLast(r);
    }
  }

  /** Task, inventory, consent, execution and policy: the new key loads a record with each
      member of the old one in its place. */
  lemma FixedKeyIsCarried(c: RecordCodec, t: JsonText, d: Disk, clock: Clock, x: Faults, key: OldKey, j: Json)
    requires Converts(c, t, d, clock, x) && Holding(t, d, key, j)
    requires !HasItems(key)
    ensures Carried(LoadedAfter(c, t, d, clock, x, FixedSlot(key)), (r: Record) => FixedCarried(key, j, r))
  {
    FixedIsLast(t, d, key, j);
    MovedIsCarried(c, t, d, clock, x, FixedSlot(key), key, j, (r: Record) => FixedCarried(key, j, r));
  }

  // ----------------------------------------------------------------------- the two counters

  predicate CountersCarried(j: Json, r: Record) {
    && r.OutboxMetaRecord?
    && U64At(j, "nextSequenceNo") == Ok(r.nextSequenceNo) && U64At(j, "acceptedSequenceNo") == Ok(r.acceptedSequenceNo)
  }

  lemma OutboxCounts(t: JsonText, j: Json)
    ensures OutboxFrom(t, j).Ok? ==> CountersCarried(j, OutboxFrom(t, j).value.0)
  {
  }

  lemma OneCounted(t: JsonText, d: Disk, s: Slot)
    requires s.OutboxMeta?
    ensures LastFor(Planning(t, d, StepFor(KindOf(s))).records, s) == Some(Counters(FormatsOf(t), SnapshotOf(d)))
  {
    CountersAreFor(t, SnapshotOf(d));
    OneIsLast(Counters(FormatsOf(t), SnapshotOf(d)));
  }

  lemma CountedIsCarried(c: RecordCodec, t: JsonText, d: Disk, clock: Clock, x: Faults, s: Slot, described: Record -> bool)
    requires Converts(c, t, d, clock, x) && s.OutboxMeta?
    requires described(Counters(FormatsOf(t), SnapshotOf(d)))
    ensures Carried(LoadedAfter(c, t, d, clock, x, s), described)
  {
    StepDecidesSlot(c, t, d, clock, x, s);
    OneCounted(t, d, s);
  }

  lemma KeyHasSlot(key: OldKey) returns (s: Slot)
    ensures StepFor(KindOf(s)) == Move(key)
  {
    match key
    case OVehicleTask => s := VehicleTask;
    case OInventory => s := Inventory;
    case OConsent => s := Consent;
    case ODownloads => s := Download([]);
    case OExecution => s := Execution;
    case OEventOutbox => s := Event(0);
    case OControls => s := Control(0);
    case OPolicy => s := Policy;
    case OLogJobs => s := LogJob([]);
  }

  /** A successful run has read every old key that is there. */
  lemma KeyWasRead(c: RecordCodec, t: JsonText, d: Disk, clock: Clock, x: Faults, key: OldKey, j: Json)
    requires Converts(c, t, d, clock, x) && Holding(t, d, key, j)
    ensures RecordsFrom(t, key, d[OldName(key)].bytes).Ok?
  {
    var s := KeyHasSlot(key);
    MovedRecords(c, t, d, clock, x, s, key, j);
  }

  lemma OutboxDecides(t: JsonText, d: Disk, j: Json)
    requires Holding(t, d, OEventOutbox, j) && RecordsFrom(t, OEventOutbox, d[OldName(OEventOutbox)].bytes).Ok?
    ensures CountersCarried(j, Counters(FormatsOf(t), SnapshotOf(d)))
  {
    HoldingIsRead(t, d, OEventOutbox, j);
    OutboxCounts(t, j);
    assert CountersFrom(t, OEventOutbox, d[OldName(OEventOutbox)].bytes) == Ok(OutboxFrom(t, j).value.0);
  }

  lemma ExecutionDecides(t: JsonText, d: Disk, j: Json)
    requires OldName(OEventOutbox) !in d
    requires Holding(t, d, OExecution, j) && RecordsFrom(t, OExecution, d[OldName(OExecution)].bytes).Ok?
    ensures CountersCarried(j, Counters(FormatsOf(t), SnapshotOf(d)))
  {
    HoldingIsRead(t, d, OExecution, j);
    ExecutionIsCarried(j);
    assert CountersFrom(t, OExecution, d[OldName(OExecution)].bytes) == Ok(ExecutionFrom(j).value.1);
  }

  lemma NeitherStartsOver(t: JsonText, d: Disk)
    requires OldName(OEventOutbox) !in d && OldName(OExecution) !in d
    ensures Counters(FormatsOf(t), SnapshotOf(d)) == OutboxMetaRecord(1, 0)
  {
  }

  /** The counters come from the old outbox. */
  lemma OutboxCountersAreCarried(c: RecordCodec, t: JsonText, d: Disk, clock: Clock, x: Faults, s: Slot, j: Json)
    requires Converts(c, t, d, clock, x) && Holding(t, d, OEventOutbox, j) && s.OutboxMeta?
    ensures Carried(LoadedAfter(c, t, d, clock, x, s), (r: Record) => CountersCarried(j, r))
  {
    KeyWasRead(c, t, d, clock, x, OEventOutbox, j);
    OutboxDecides(t, d, j);
    CountedIsCarried(c, t, d, clock, x, s, (r: Record) => CountersCarried(j, r));
  }

  /** Without an outbox they come from the old execution. */
  lemma ExecutionCountersAreCarried(c: RecordCodec, t: JsonText, d: Disk, clock: Clock, x: Faults, s: Slot, j: Json)
    requires Converts(c, t, d, clock, x) && OldName(OEventOutbox) !in d && Holding(t, d, OExecution, j) && s.OutboxMeta?
    ensures Carried(LoadedAfter(c, t, d, clock, x, s), (r: Record) => CountersCarried(j, r))
  {
    KeyWasRead(c, t, d, clock, x, OExecution, j);
    ExecutionDecides(t, d, j);
    CountedIsCarried(c, t, d, clock, x, s, (r: Record) => CountersCarried(j, r));
  }

  /** Without either they are the first ones. */
  lemma CountersStartOver(c: RecordCodec, t: JsonText, d: Disk, clock: Clock, x: Faults, s: Slot)
    requires Converts(c, t, d, clock, x) && OldName(OEventOutbox) !in d && OldName(OExecution) !in d && s.OutboxMeta?
    ensures Carried(LoadedAfter(c, t, d, clock, x, s), (r: Record) => r == OutboxMetaRecord(1, 0))
  {
    NeitherStartsOver(t, d);
    CountedIsCarried(c, t, d, clock, x, s, (r: Record) => r == OutboxMetaRecord(1, 0));
  }

  // ----------------------------------------------------------------- keys with many records

  predicate DownloadCarried(j: Json, r: Record) {
    && r.DownloadRecord?
    && StrAt(j, "packageId") == Ok(r.packageId) && StrAt(j, "packageRevision") == Ok(r.packageRevision)
    && StrAt(j, "etag") == Ok(r.etag) && I64At(j, "offset").Ok?
    && r.currentOffsetBytes == (if I64At(j, "offset").value < 0 then 0 else I64At(j, "offset").value)
    && Chars(r.offsetScope) == "STORED_OBJECT"
    && I64Or(j, "credentialExpiresAtMs", 0) == Ok(r.credentialExpiresAtMs)
    && StrAt(j, "verifyStatus") == Ok(r.verifyStatus) && StrAt(j, "stageResultId") == Ok(r.stageResultId)
    && StrAt(j, "stageResultDigest") == Ok(r.stageResultDigestHex) && BoolOr(j, "ready", false) == Ok(r.ready)
  }

  /** An event keeps everything but its message. */
  predicate EventCarried(j: Json, r: Record) {
    && r.EventRecord?
    && U64At(j, "sequenceNo") == Ok(r.sequenceNo) && StrAt(j, "eventId") == Ok(r.eventId)
    && StrAt(j, "eventDigest") == Ok(r.eventDigestHex) && StrAt(j, "stage") == Ok(r.stage)
    && StrAt(j, "result") == Ok(r.eventStatus) && U32Or(j, "progressPercent", 0) == Ok(r.progress)
    && I64At(j, "timestampMs") == Ok(r.occurredAtMs) && StrAt(j, "payloadSummary") == Ok(r.payloadSummary)
    && StrAt(j, "sendStatus") == Ok(r.sendStatus) && r.eventPbHex == []
  }

  predicate RenamedAction(old_: string, new_: string) {
    if old_ == "RESUME" then new_ == "CONTINUE" else new_ == old_
  }

  predicate RenamedMode(old_: string, new_: string) {
    if old_ == "IMMEDIATE" then new_ == "IMMEDIATE_IF_SAFE" else new_ == old_
  }

  predicate ControlCarried(j: Json, r: Record) {
    && r.ControlRecord?
    && r.controlId == [] && NumberedBy(j, "controlRevision", r.controlRevision)
    && StrAt(j, "commandType").Ok? && RenamedAction(Chars(StrAt(j, "commandType").value), Chars(r.action))
    && Chars(r.scope) == "EXECUTION"
    && StrAt(j, "applyMode").Ok? && RenamedMode(Chars(StrAt(j, "applyMode").value), Chars(r.applyMode))
    && r.issuedAtMs == 0 && I64At(j, "expiresAtMs") == Ok(r.expiresAtMs) && StrAt(j, "reason") == Ok(r.reason)
    && StrAt(j, "ackStatus") == Ok(r.ackStatus) && U64At(j, "ackSequenceNo") == Ok(r.ackSequenceNo)
    && I64At(j, "appliedAtMs") == Ok(r.appliedAtMs)
  }

  predicate LogJobCarried(j: Json, r: Record) {
    && r.LogJobRecord?
    && StrAt(j, "logRequestId") == Ok(r.logRequestId) && StrAt(j, "objectKey") == Ok(r.objectKey)
    && StrAt(j, "digestHex") == Ok(r.digestHex) && r.algorithm == [] && I64At(j, "sizeBytes").Ok?
    && r.sizeBytes == (if I64At(j, "sizeBytes").value < 0 then 0 else I64At(j, "sizeBytes").value)
    && StrAt(j, "status") == Ok(r.status) && I64At(j, "completedAtMs") == Ok(r.completedAtMs)
  }

  predicate ItemCarried(key: OldKey, j: Json, r: Record) {
    match key
    case ODownloads => DownloadCarried(j, r)
    case OEventOutbox => EventCarried(j, r)
    case OControls => ControlCarried(j, r)
    case OLogJobs => LogJobCarried(j, r)
    case _ => false
  }

  predicate HasItems(key: OldKey) {
    key.ODownloads? || key.OEventOutbox? || key.OControls? || key.OLogJobs?
  }

  /** The item belongs into this slot. */
  predicate Names(key: OldKey, j: Json, s: Slot) {
    match s
    case Download(id) => key == ODownloads && StrAt(j, "packageId") == Ok(id)
    case Event(number) => key == OEventOutbox && U64At(j, "sequenceNo") == Ok(number)
    case Control(revision) => key == OControls && NumberedBy(j, "controlRevision", revision)
    case LogJob(id) => key == OLogJobs && StrAt(j, "logRequestId") == Ok(id)
    case _ => false
  }

  function ItemFrom(key: OldKey, j: Json): Result<Record>
    requires HasItems(key)
  {
    match key
    case ODownloads => DownloadFrom(j)
    case OEventOutbox => EventFrom(j)
    case OControls => ControlFrom(j)
    case OLogJobs => LogJobFrom(j)
  }

  lemma DownloadIsCarried(j: Json)
    ensures DownloadFrom(j).Ok? ==> DownloadCarried(j, DownloadFrom(j).value)
  {
    CharsOfAscii("STORED_OBJECT");
  }

  lemma EventIsCarried(j: Json)
    ensures EventFrom(j).Ok? ==> EventCarried(j, EventFrom(j).value)
  {
  }

  lemma ControlIsCarried(j: Json)
    ensures ControlFrom(j).Ok? ==> ControlCarried(j, ControlFrom(j).value)
  {
    CharsOfAscii("EXECUTION");
    CharsOfAscii("CONTINUE");
    CharsOfAscii("IMMEDIATE_IF_SAFE");
  }

  lemma LogJobIsCarried(j: Json)
    ensures LogJobFrom(j).Ok? ==> LogJobCarried(j, LogJobFrom(j).value)
  {
  }

  lemma ItemIsCarried(key: OldKey, j: Json)
    requires HasItems(key) && ItemFrom(key, j).Ok?
    ensures ItemCarried(key, j, ItemFrom(key, j).value)
  {
    match key
    case ODownloads => DownloadIsCarried(j);
    case OEventOutbox => EventIsCarried(j);
    case OControls => ControlIsCarried(j);
    case OLogJobs => LogJobIsCarried(j);
  }

  lemma CarriedIsNamed(key: OldKey, j: Json, r: Record, s: Slot)
    requires HasItems(key) && ItemCarried(key, j, r)
    ensures Names(key, j, s) <==> SlotOf(r) == s
  {
  }

  /** The items of an old key, as they are iterated. */
  function Items(t: JsonText, j: Json): seq<Json> {
    match At(j, "entries")
    case Ok(list) => Elements(t, list)
    case Err(_) => []
  }

  lemma ItemsAreMapped(t: JsonText, key: OldKey, b: ByteString)
    requires HasItems(key) && RecordsFrom(t, key, b).Ok?
    ensures var items, records := Items(t, LegacyJson(t, b).value), RecordsFrom(t, key, b).value;
            |records| == |items| && forall i :: 0 <= i < |items| ==> ItemFrom(key, items[i]) == Ok(records[i])
  {
  }

  lemma {:induction false} LastIsAt(records: seq<Record>, s: Slot, i: nat)
    requires i < |records| && SlotOf(records[i]) == s
    requires forall k :: i < k < |records| ==> SlotOf(records[k]) != s
    ensures LastFor(records, s) == Some(records[i])
    decreases |records|
  {
    var n := |records| - 1;
    if i < n {
      LastIsAt(records[..n], s, i);
    }
  }

  /** Some item names the slot, the last of them at `i`. */
  predicate NamedLast(key: OldKey, items: seq<Json>, s: Slot, i: nat) {
    i < |items| && Names(key, items[i], s) && forall k :: i < k < |items| ==> !Names(key, items[k], s)
  }

  predicate Unnamed(key: OldKey, items: seq<Json>, s: Slot) {
    forall k :: 0 <= k < |items| ==> !Names(key, items[k], s)
  }

  lemma ItemsMatch(t: JsonText, key: OldKey, b: ByteString, s: Slot)
    requires HasItems(key) && RecordsFrom(t, key, b).Ok?
    ensures var items, records := Items(t, LegacyJson(t, b).value), RecordsFrom(t, key, b).value;
            |records| == |items| && Match(key, items, records, s)
  {
    ItemsAreMapped(t, key, b);
    var items, records := Items(t, LegacyJson(t, b).value), RecordsFrom(t, key, b).value;
    forall k | 0 <= k < |items|
      ensures Names(key, items[k], s) <==> SlotOf(records[k]) == s
      ensures ItemCarried(key, items[k], records[k])
    {
      ItemIsCarried(key, items[k]);
      CarriedIsNamed(key, items[k], records[k], s);
    }
  }

  ghost predicate Match(key: OldKey, items: seq<Json>, records: seq<Record>, s: Slot)
    requires |records| == |items|
  {
    forall k :: 0 <= k < |items| ==>
      (Names(key, items[k], s) <==> SlotOf(records[k]) == s) && ItemCarried(key, items[k], records[k])
  }

  lemma NoneIsLast(key: OldKey, items: seq<Json>, records: seq<Record>, s: Slot)
    requires |records| == |items| && Match(key, items, records, s) && Unnamed(key, items, s)
    ensures LastFor(records, s).None?
  {
  }

  lemma LastIsNamed(key: OldKey, items: seq<Json>, records: seq<Record>, s: Slot, i: nat)
    requires |records| == |items| && Match(key, items, records, s) && NamedLast(key, items, s, i)
    ensures LastFor(records, s).Some? && ItemCarried(key, items[i], LastFor(records, s).value)
  {
    forall k | i < k < |records|
      ensures SlotOf(records[k]) != s
    {
      assert !Names(key, items[k], s);
    }
    LastIsAt(records, s, i);
  }

  lemma LastItemDecides(t: JsonText, key: OldKey, b: ByteString, s: Slot, i: nat)
    requires HasItems(key) && RecordsFrom(t, key, b).Ok?
    ensures var items, last := Items(t, LegacyJson(t, b).value), LastFor(RecordsFrom(t, key, b).value, s);
            && (NamedLast(key, items, s, i) ==> last.Some? && ItemCarried(key, items[i], last.value))
            && (Unnamed(key, items, s) ==> last.None?)
  {
    ItemsMatch(t, key, b, s);
    var items, records := Items(t, LegacyJson(t, b).value), RecordsFrom(t, key, b).value;
    if NamedLast(key, items, s, i) {
      LastIsNamed(key, items, records, s, i);
    }
    if Unnamed(key, items, s) {
      NoneIsLast(key, items, records, s);
    }
  }

  /** Downloads, events, controls and log jobs: a slot some item names loads the last such item
      with each of its members in its place. */
  lemma ItemsAreCarried(c: RecordCodec, t: JsonText, d: Disk, clock: Clock, x: Faults, key: OldKey, j: Json, s: Slot, i: nat)
    requires Converts(c, t, d, clock, x) && HasItems(key) && Holding(t, d, key, j) && StepFor(KindOf(s)) == Move(key)
    requires NamedLast(key, Items(t, j), s, i)
    ensures Carried(LoadedAfter(c, t, d, clock, x, s), (r: Record) => ItemCarried(key, Items(t, j)[i], r))
  {
    MovedRecords(c, t, d, clock, x, s, key, j);
    LastItemDecides(t, key, d[OldName(key)].bytes, s, i);
  }

  /** A slot that no item names is as it was. */
  lemma UnnamedSlotIsKept(c: RecordCodec, t: JsonText, d: Disk, clock: Clock, x: Faults, key: OldKey, j: Json, s: Slot)
    requires Converts(c, t, d, clock, x) && HasItems(key) && Holding(t, d, key, j) && StepFor(KindOf(s)) == Move(key)
    requires Unnamed(key, Items(t, j), s)
    ensures LoadedAfter(c, t, d, clock, x, s) == Loaded(c, s, d)
  {
    MovedRecords(c, t, d, clock, x, s, key, j);
    LastItemDecides(t, key, d[OldName(key)].bytes, s, 0);
  }

  /** Every item is numbered below `n`. */
  predicate NumberedBelow(items: seq<Json>, n: U64) {
    forall i :: 0 <= i < |items| ==>
      var number := U64At(items[i], "sequenceNo"); number.Ok? ==> number.value < n
  }

  lemma BelowIsUnnamed(key: OldKey, items: seq<Json>, s: Slot)
    requires s.Event? && NumberedBelow(items, s.number)
    ensures Unnamed(key, items, s) && (key.OEventOutbox? ==> StepFor(KindOf(s)) == Move(key))
  {
  }

  /** When the numbers of all old events are below the old next number, which the counters
      keep, no event was migrated to the number the next emit takes. */
  lemma NextNumberIsFree(c: RecordCodec, t: JsonText, d: Disk, clock: Clock, x: Faults, key: OldKey, j: Json, next: Slot)
    requires Converts(c, t, d, clock, x) && key.OEventOutbox? && Holding(t, d, key, j)
    requires next.Event? && U64At(j, "nextSequenceNo") == Ok(next.number) && NumberedBelow(Items(t, j), next.number)
    ensures LoadedAfter(c, t, d, clock, x, next) == Loaded(c, next, d)
  {
    BelowIsUnnamed(key, Items(t, j), next);
    UnnamedSlotIsKept(c, t, d, clock, x, key, j, next);
  }
}
