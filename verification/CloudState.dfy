/** The persisted record types and the flat key space they are stored in. */
module CloudState {
  import opened Wrappers
  import opened Bytes
  import opened Decimals

  datatype Record =
    | VehicleTaskRecord(
        vehicleTaskId: ByteString, taskRevision: U64, targetBaselineCode: ByteString, vehicleTaskState: ByteString,
        frozenAtMs: I64, taskSnapshotPbHex: ByteString, localDispositionResult: ByteString, superseded: bool)
    | InventoryRecord(
        mode: ByteString, inventoryRevision: U64, algorithm: ByteString, ecuListDigestHex: ByteString,
        baselineCode: ByteString, fotaMasterVersion: ByteString, collectedAtMs: I64, requestPbHex: ByteString,
        fullRequired: bool)
    | ConsentRecord(
        vehicleTaskId: ByteString, effectiveStatus: ByteString, receiptId: ByteString, receiptExpiresAtMs: I64,
        termsId: ByteString, termsVersion: ByteString, termsDigestHex: ByteString, termsAlgorithm: ByteString,
        consentTimeMs: I64, channel: ByteString)
    | DownloadRecord(
        packageId: ByteString, packageRevision: ByteString, etag: ByteString, currentOffsetBytes: U64,
        offsetScope: ByteString, credentialExpiresAtMs: I64, verifyStatus: ByteString, stageResultId: ByteString,
        stageResultDigestHex: ByteString, ready: bool)
    | ExecutionRecord(
        vehicleTaskId: ByteString, executionId: ByteString, attemptNo: U32, permitId: ByteString,
        permitToken: ByteString, executionControlRevision: U64, validUntilMs: I64, executionState: ByteString,
        installPlanVersion: ByteString, checkpointPbHex: ByteString, offlinePolicyPbHex: ByteString,
        timeoutPolicyPbHex: ByteString)
    | OutboxMetaRecord(nextSequenceNo: U64, acceptedSequenceNo: U64)
    | EventRecord(
        sequenceNo: U64, eventId: ByteString, eventDigestHex: ByteString, stage: ByteString, eventStatus: ByteString,
        progress: U32, occurredAtMs: I64, payloadSummary: ByteString, sendStatus: ByteString, eventPbHex: ByteString)
    | ControlRecord(
        controlId: ByteString, controlRevision: U64, action: ByteString, scope: ByteString, applyMode: ByteString,
        issuedAtMs: I64, expiresAtMs: I64, reason: ByteString, ackStatus: ByteString, ackSequenceNo: U64,
        appliedAtMs: I64)
    | PolicyRecord(
        localPolicyVersion: ByteString, basePreferenceVersion: ByteString, preferenceVersion: ByteString,
        effectivePolicyPbHex: ByteString, conflict: bool, effectiveAtMs: I64)
    | LogJobRecord(
        logRequestId: ByteString, objectKey: ByteString, digestHex: ByteString, algorithm: ByteString,
        sizeBytes: U64, status: ByteString, completedAtMs: I64)

  /** The place of one record: one per fixed key, one per item of a multi-item category. */
  datatype Slot =
    | VehicleTask
    | Inventory
    | Consent
    | Download(packageId: ByteString)
    | Execution
    | OutboxMeta
    | Event(number: U64)
    | Control(revision: U64)
    | Policy
    | LogJob(logRequestId: ByteString)

  function SlotOf(r: Record): Slot {
    match r
    case VehicleTaskRecord(_, _, _, _, _, _, _, _) => VehicleTask
    case InventoryRecord(_, _, _, _, _, _, _, _, _) => Inventory
    case ConsentRecord(_, _, _, _, _, _, _, _, _, _) => Consent
    case DownloadRecord(id, _, _, _, _, _, _, _, _, _) => Download(id)
    case ExecutionRecord(_, _, _, _, _, _, _, _, _, _, _, _) => Execution
    case OutboxMetaRecord(_, _) => OutboxMeta
    case EventRecord(number, _, _, _, _, _, _, _, _, _) => Event(number)
    case ControlRecord(_, revision, _, _, _, _, _, _, _, _, _) => Control(revision)
    case PolicyRecord(_, _, _, _, _, _) => Policy
    case LogJobRecord(id, _, _, _, _, _, _) => LogJob(id)
  }

  datatype RecordKind =
    KVehicleTask | KInventory | KConsent | KDownload | KExecution | KOutboxMeta | KEvent | KControl | KPolicy | KLogJob

  function KindOf(s: Slot): RecordKind {
    match s
    case VehicleTask => KVehicleTask
    case Inventory => KInventory
    case Consent => KConsent
    case Download(_) => KDownload
    case Execution => KExecution
    case OutboxMeta => KOutboxMeta
    case Event(_) => KEvent
    case Control(_) => KControl
    case Policy => KPolicy
    case LogJob(_) => KLogJob
  }

  /** The part of the key the category fixes. */
  function Prefix(kind: RecordKind): string {
    match kind
    case KVehicleTask => "fota.vehicle_task"
    case KInventory => "fota.inventory"
    case KConsent => "fota.consent"
    case KDownload => "fota.downloads:"
    case KExecution => "fota.execution"
    case KOutboxMeta => "fota.event_outbox_meta"
    case KEvent => "fota.event_outbox:"
    case KControl => "fota.controls:"
    case KPolicy => "fota.policy"
    case KLogJob => "fota.log_jobs:"
  }

  /** The item identifier; empty for a fixed key. */
  function Item(s: Slot): ByteString {
    match s
    case Download(id) => id
    case Event(number) => Decimal(number)
    case Control(revision) => Decimal(revision)
    case LogJob(id) => id
    case _ => []
  }

  function Key(s: Slot): string {
    Prefix(KindOf(s)) + Chars(Item(s))
  }

  const MARKER_KEY: string := "fota.migration_marker"

  /** The category a key belongs to, read off a few of its characters. */
  function KindOfKey(key: string): Option<RecordKind> {
    if |key| < 9 || key[0] != 'f' then None
    else if key[5] == 'v' then Some(KVehicleTask)
    else if key[5] == 'i' then Some(KInventory)
    else if key[5] == 'c' then Some(if key[8] == 's' then KConsent else KControl)
    else if key[5] == 'd' then Some(KDownload)
    else if key[5] == 'e' && key[6] == 'x' then Some(KExecution)
    else if key[5] == 'e' && |key| > 17 then Some(if key[17] == '_' then KOutboxMeta else KEvent)
    else if key[5] == 'p' then Some(KPolicy)
    else if key[5] == 'l' then Some(KLogJob)
    else None
  }

  lemma KeyShowsKind(s: Slot)
    ensures KindOfKey(Key(s)) == Some(KindOf(s))
  {
    var p := Prefix(KindOf(s));
    assert |p| >= 11 && forall i :: 0 <= i < |p| ==> Key(s)[i] == p[i];
  }

  lemma CharsAreInjective(a: ByteString, b: ByteString)
    requires Chars(a) == Chars(b)
    ensures a == b
  {
    assert |a| == |Chars(a)| && |b| == |Chars(b)|;
    assert forall i :: 0 <= i < |a| ==> a[i] as char == Chars(a)[i] && b[i] as char == Chars(b)[i];
  }

  lemma ItemsIdentify(a: Slot, b: Slot)
    requires KindOf(a) == KindOf(b) && Item(a) == Item(b)
    ensures a == b
  {
    match a
    case Event(number) =>
      NumberOfDecimal(number);
      NumberOfDecimal(b.number);
    case Control(revision) =>
      NumberOfDecimal(revision);
      NumberOfDecimal(b.revision);
    case _ =>
  }

  lemma SameTail(p: string, x: string, y: string)
    requires p + x == p + y
    ensures x == y
  {
    assert (p + x)[|p|..] == x && (p + y)[|p|..] == y;
  }

  /** No two records share a key: item keys are injective, and apart from every fixed key. */
  lemma KeysAreInjective(a: Slot, b: Slot)
    ensures Key(a) == Key(b) <==> a == b
  {
    if Key(a) == Key(b) {
      KeyShowsKind(a);
      KeyShowsKind(b);
      SameTail(Prefix(KindOf(a)), Chars(Item(a)), Chars(Item(b)));
      CharsAreInjective(Item(a), Item(b));
      ItemsIdentify(a, b);
    }
  }

  lemma MarkerIsNoRecord(s: Slot)
    ensures Key(s) != MARKER_KEY
  {
    KeyShowsKind(s);
    assert MARKER_KEY[5] == 'm';
  }
}
