/** The one-time migration from `ota.*` to `fota.*`: what one run reads, writes and removes. */
module StateMigrationSpec {
  import opened Wrappers
  import opened Bytes
  import opened CloudState
  import opened RecordText
  import opened DurableStore
  import opened CloudStateStore
  import opened LegacyRecords
  import opened MigrationFormats

  const OLD_KEYS: seq<OldKey> :=
    [OVehicleTask, OInventory, OConsent, ODownloads, OExecution, OEventOutbox, OControls, OPolicy, OLogJobs]

  function OldName(k: OldKey): string {
    match k
    case OVehicleTask => "ota.vehicle_task"
    case OInventory => "ota.inventory"
    case OConsent => "ota.consent"
    case ODownloads => "ota.downloads"
    case OExecution => "ota.execution"
    case OEventOutbox => "ota.event_outbox"
    case OControls => "ota.controls"
    case OPolicy => "ota.policy"
    case OLogJobs => "ota.log_jobs"
  }

  lemma OldNamesAreApart(k: OldKey, s: Slot)
    ensures OldName(k) != Key(s) && OldName(k) != MARKER_KEY
  {
    KeyShowsKind(s);
    assert OldName(k)[0] == 'o' && MARKER_KEY[0] == 'f' && Key(s)[0] == 'f';
  }

  lemma EveryOldKeyIsListed(k: OldKey)
    ensures k in OLD_KEYS
  {
    var i := match k
      case OVehicleTask => 0 case OInventory => 1 case OConsent => 2 case ODownloads => 3 case OExecution => 4
      case OEventOutbox => 5 case OControls => 6 case OPolicy => 7 case OLogJobs => 8;
    assert OLD_KEYS[i] == k;
  }

  // ------------------------------------------------------------------------- store faults

  /** How each access of a run to the framework store goes; one that fails ends the run. */
  datatype Faults = Faults(
    detect: OldKey -> bool,       // `has` fails while the run looks for old keys
    marker: ReadFault,
    move: OldKey -> ReadFault,
    check: Slot -> ReadFault,
    save: nat -> SaveFault,       // the records in writing order, then the marker
    remove: nat -> SaveFault)     // the old keys in order

  const NO_FAULTS: Faults := Faults(k => false, ReadWorks, k => ReadWorks, s => ReadWorks, n => Works, n => Works)

  predicate ReadFails(held: Option<Stored>, fault: ReadFault) {
    fault.HasFails? || (fault.LoadFails? && held.Some?)
  }

  function FaultAt(fault: nat -> SaveFault, n: nat): SaveFault {
    fault(n)
  }

  predicate AllWork(fault: nat -> SaveFault, n: nat) {
    forall i :: 0 <= i < n ==> FaultAt(fault, i).Works?
  }

  /** How many of `n` accesses, made until one fails, become durable. */
  function Durable(fault: nat -> SaveFault, n: nat): (k: nat)
    ensures k <= n && (AllWork(fault, n) ==> k == n)
  {
    if n == 0 then 0
    else if !AllWork(fault, n - 1) then Durable(fault, n - 1)
    else if FaultAt(fault, n - 1).NotWritten? then n - 1
    else n
  }

  // ------------------------------------------------------------------ what is to be written

  function Held(d: Disk, key: string): Option<Stored> {
    if key in d then Some(d[key]) else None
  }

  /** Records in writing order, up to the first failure if there is one. */
  datatype Planned = Planned(records: seq<Record>, error: Option<string>)

  function Then(p: Planned, q: Planned): Planned {
    if p.error.Some? then p else Planned(p.records + q.records, q.error)
  }

  function Stage(f: Formats, key: OldKey, held: Option<Stored>, fault: ReadFault): Planned {
    if ReadFails(held, fault) then Planned([], Some("store read failed")) else
    match held
    case None => Planned([], None)
    case Some(OtherType) => Planned([], Some("store load failed"))
    case Some(Text(b)) =>
      match f.records(key, b)
      case Err(error) => Planned([], Some(error))
      case Ok(records) => Planned(records, None)
  }

  /** The counters of an old key, or the ones known so far. */
  function CountersOr(f: Formats, key: OldKey, held: Option<Stored>, otherwise: Record): Record {
    match held
    case Some(Text(b)) => (match f.counters(key, b) case Ok(r) => r case Err(_) => otherwise)
    case _ => otherwise
  }

  const FIRST_COUNTERS: Record := OutboxMetaRecord(1, 0)

  datatype Snapshot = Snapshot(
    vehicleTask: Option<Stored>, inventory: Option<Stored>, consent: Option<Stored>, downloads: Option<Stored>,
    execution: Option<Stored>, events: Option<Stored>, controls: Option<Stored>, policy: Option<Stored>,
    logJobs: Option<Stored>)

  function SnapshotOf(d: Disk): Snapshot {
    Snapshot(Held(d, OldName(OVehicleTask)), Held(d, OldName(OInventory)), Held(d, OldName(OConsent)),
             Held(d, OldName(ODownloads)), Held(d, OldName(OExecution)), Held(d, OldName(OEventOutbox)),
             Held(d, OldName(OControls)), Held(d, OldName(OPolicy)), Held(d, OldName(OLogJobs)))
  }

  /** The counters: the outbox's if it is there, else the execution's, else the first ones. */
  function Counters(f: Formats, s: Snapshot): Record {
    CountersOr(f, OEventOutbox, s.events, CountersOr(f, OExecution, s.execution, FIRST_COUNTERS))
  }

  function HeldIn(s: Snapshot, k: OldKey): Option<Stored> {
    match k
    case OVehicleTask => s.vehicleTask
    case OInventory => s.inventory
    case OConsent => s.consent
    case ODownloads => s.downloads
    case OExecution => s.execution
    case OEventOutbox => s.events
    case OControls => s.controls
    case OPolicy => s.policy
    case OLogJobs => s.logJobs
  }

  datatype Step = Move(key: OldKey) | Count

  /** The old keys in order; the counters are written after the events. */
  const STEPS: seq<Step> :=
    [Move(OVehicleTask), Move(OInventory), Move(OConsent), Move(ODownloads), Move(OExecution), Move(OEventOutbox),
     Count, Move(OControls), Move(OPolicy), Move(OLogJobs)]

  function StepPlan(f: Formats, s: Snapshot, step: Step, fault: OldKey -> ReadFault): Planned {
    match step
    case Move(key) => Stage(f, key, HeldIn(s, key), fault(key))
    case Count => Planned([Counters(f, s)], None)
  }

  function PlanOf(f: Formats, s: Snapshot, steps: seq<Step>, fault: OldKey -> ReadFault): Planned {
    if steps == [] then Planned([], None)
    else Then(StepPlan(f, s, steps[0], fault), PlanOf(f, s, steps[1..], fault))
  }

  function Plan(f: Formats, s: Snapshot, fault: OldKey -> ReadFault): Planned {
    PlanOf(f, s, STEPS, fault)
  }

  /** Whether a completed marker is stored; a marker that does not decode throws. */
  function MarkerDone(f: Formats, held: Option<Stored>): Result<bool> {
    match held
    case None => Ok(false)
    case Some(OtherType) => Err("store load failed")
    case Some(Text(b)) =>
      var m :- f.readMarker(b);
      Ok(m.completed)
  }

  function MarkerRead(f: Formats, held: Option<Stored>, fault: ReadFault): Result<bool> {
    if ReadFails(held, fault) then Err("store read failed") else MarkerDone(f, held)
  }

  // --------------------------------------------------------------------------- one whole run

  /** The clock as each write of the run reads it, and the time put into the marker. */
  datatype Clock = Clock(at: nat -> I64, migratedAt: I64)

  function Written(c: RecordCodec, d: Disk, records: seq<Record>, at: nat -> I64): Disk {
    if records == [] then d else
    var n := |records| - 1;
    Put(c, Written(c, d, records[..n], at), records[n], at(n))
  }

  function WriteTrace(c: RecordCodec, d: Disk, records: seq<Record>, at: nat -> I64): (disks: seq<Disk>)
    ensures |disks| == |records|
  {
    if records == [] then [] else
    WriteTrace(c, d, records[..|records| - 1], at) + [Written(c, d, records, at)]
  }

  function Names(keys: seq<OldKey>): set<string> {
    if keys == [] then {} else Names(keys[..|keys| - 1]) + {OldName(keys[|keys| - 1])}
  }

  /** The removals, in order; removing an absent key writes nothing. */
  function CleanTrace(d: Disk, keys: seq<OldKey>): seq<Disk> {
    if keys == [] then [] else
    var n := |keys| - 1;
    CleanTrace(d, keys[..n]) + if OldName(keys[n]) in d - Names(keys[..n]) then [d - Names(keys)] else []
  }

  const FIXED_SLOTS: seq<Slot> := [VehicleTask, Inventory, Consent, Execution, OutboxMeta, Policy]

  /** Every fixed key that is there can be read back. */
  predicate Consistent(c: RecordCodec, d: Disk) {
    forall i :: 0 <= i < |FIXED_SLOTS| ==> Loaded(c, FIXED_SLOTS[i], d).Ok?
  }

  /** The same, when the store may fail at it. */
  predicate Checked(c: RecordCodec, d: Disk, fault: Slot -> ReadFault) {
    forall i :: 0 <= i < |FIXED_SLOTS| ==>
      !ReadFails(Held(d, Key(FIXED_SLOTS[i])), fault(FIXED_SLOTS[i])) && Loaded(c, FIXED_SLOTS[i], d).Ok?
  }

  predicate AnyOld(d: Disk) {
    exists k :: k in OLD_KEYS && OldName(k) in d
  }

  /** The search for an old key stops at the first one found. */
  function Detect(d: Disk, keys: seq<OldKey>, hasFails: OldKey -> bool): (r: Result<bool>)
    ensures r.Ok? ==> (r.value <==> exists k :: k in keys && OldName(k) in d)
  {
    if keys == [] then Ok(false)
    else if hasFails(keys[0]) then Err("store has failed")
    else if OldName(keys[0]) in d then Ok(true)
    else
      assert forall k :: k in keys <==> k == keys[0] || k in keys[1..];
      Detect(d, keys[1..], hasFails)
  }

  /** The durable contents of a run and whether it returned or threw. */
  datatype Migrated = Migrated(disks: seq<Disk>, ok: bool)

  function NewMarker(records: seq<Record>, clock: Clock): Marker {
    Marker(1, true, ToU32(|records|), clock.migratedAt)
  }

  function Marked(f: Formats, d: Disk, records: seq<Record>, clock: Clock): Disk {
    d[MARKER_KEY := Text(f.writeMarker(NewMarker(records, clock), clock.at(|records|)))]
  }

  function Run(c: RecordCodec, f: Formats, d: Disk, clock: Clock, x: Faults): Migrated {
    var any := Detect(d, OLD_KEYS, x.detect);
    if any.Err? then Migrated([], false)
    else if !any.value then Migrated([], true)
    else
      match MarkerRead(f, Held(d, MARKER_KEY), x.marker)
      case Err(_) => Migrated([], false)
      case Ok(true) => Clean(d, x)
      case Ok(false) => Convert(c, f, d, Plan(f, SnapshotOf(d), x.move), clock, x)
  }

  function Clean(d: Disk, x: Faults): Migrated {
    Migrated(CleanTrace(d, OLD_KEYS[..Durable(x.remove, |OLD_KEYS|)]), AllWork(x.remove, |OLD_KEYS|))
  }

  /** The records up to the first save that fails, and if all are there, the check, the marker
      and the removals. */
  function Convert(c: RecordCodec, f: Formats, d: Disk, p: Planned, clock: Clock, x: Faults): Migrated {
    var durable := p.records[..Durable(x.save, |p.records|)];
    var disks := WriteTrace(c, d, durable, clock.at);
    if !ReachesMarker(c, d, p, clock, x) then Migrated(disks, false) else
    var done := Finish(Marked(f, Written(c, d, p.records, clock.at), p.records, clock), FaultAt(x.save, |p.records|), x);
    Migrated(disks + done.disks, done.ok)
  }

  /** `d2` is the disk with the marker on it. */
  function Finish(d2: Disk, fault: SaveFault, x: Faults): Migrated {
    match fault
    case NotWritten => Migrated([], false)
    case WrittenThenFailed => Migrated([d2], false)
    case Works => Migrated([d2] + Clean(d2, x).disks, Clean(d2, x).ok)
  }

  /** Everything before the marker has worked. */
  predicate ReachesMarker(c: RecordCodec, d: Disk, p: Planned, clock: Clock, x: Faults) {
    AllWork(x.save, |p.records|) && p.error.None? && Checked(c, Written(c, d, p.records, clock.at), x.check)
  }
}
