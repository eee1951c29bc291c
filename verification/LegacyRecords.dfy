/** The records of the old store, read from their JSON and mapped to the new types. */
module LegacyRecords {
  import opened Wrappers
  import opened Bytes
  import opened Envelope
  import opened Json
  import opened CloudState
  import opened LegacyRevision
  import Decimals

  const LEGACY_VERSION: U32 := 1

  /** Exactly version 1 is readable: neither newer nor older. */
  function LegacyJson(t: JsonText, b: ByteString): Result<Json> {
    var h :- ParseHeader(b);
    if h.schemaVersion > LEGACY_VERSION then Err("unknown newer schemaVersion")
    else if h.schemaVersion < LEGACY_VERSION then Err("unsupported older schemaVersion")
    else Parse(t, ExtractPayload(b, h))
  }

  function MapAll<T>(items: seq<Json>, f: Json -> Result<T>): (r: Result<seq<T>>)
    ensures r.Ok? ==> |r.value| == |items| && forall i :: 0 <= i < |items| ==> f(items[i]) == Ok(r.value[i])
  {
    if items == [] then Ok([]) else
    var first :- f(items[0]);
    var rest :- MapAll(items[1..], f);
    Ok([first] + rest)
  }

  function Entries(t: JsonText, j: Json, f: Json -> Result<Record>): Result<seq<Record>> {
    var list :- At(j, "entries");
    MapAll(Elements(t, list), f)
  }

  /** A signed size or offset; negative values count as 0. */
  function NonNegative(n: I64): U64 {
    if n > 0 then n else 0
  }

  function MapControlAction(old_: ByteString): ByteString {
    if Chars(old_) == "RESUME" then Ascii("CONTINUE") else old_
  }

  function MapApplyMode(old_: ByteString): ByteString {
    if Chars(old_) == "IMMEDIATE" then Ascii("IMMEDIATE_IF_SAFE") else old_
  }

  function VehicleTaskFrom(j: Json): Result<Record> {
    var vehicleTaskId :- StrAt(j, "vehicleTaskId");
    var taskRevision :- StrAt(j, "taskRevision");
    var targetBaselineId :- StrAt(j, "targetBaselineId");
    var vehicleTaskState :- StrAt(j, "vehicleTaskState");
    var frozenAtMs :- I64At(j, "frozenAtMs");
    var frozenSnapshotPbHex :- StrOr(j, "frozenSnapshotPbHex", []);
    var localDispositionResult :- StrOr(j, "localDispositionResult", []);
    var superseded :- BoolOr(j, "superseded", false);
    Ok(VehicleTaskRecord(vehicleTaskId, RevisionToUint64(taskRevision), targetBaselineId, vehicleTaskState,
                         frozenAtMs, [], localDispositionResult, superseded))
  }

  function InventoryFrom(j: Json): Result<Record> {
    var mode :- StrAt(j, "mode");
    var inventoryRevision :- StrAt(j, "inventoryRevision");
    var algorithm :- StrAt(j, "algorithm");
    var ecuListDigest :- StrAt(j, "ecuListDigest");
    var collectedAtMs :- I64At(j, "collectedAtMs");
    var inventoryPbHex :- StrOr(j, "inventoryPbHex", []);
    var fullRequired :- BoolOr(j, "fullRequired", false);
    Ok(InventoryRecord(mode, RevisionToUint64(inventoryRevision), algorithm, ecuListDigest, [], [],
                       collectedAtMs, [], fullRequired))
  }

  function ConsentFrom(j: Json): Result<Record> {
    var vehicleTaskId :- StrAt(j, "vehicleTaskId");
    var effectiveStatus :- StrAt(j, "effectiveStatus");
    var receiptId :- StrAt(j, "receiptId");
    var receiptExpiresAtMs :- I64At(j, "receiptExpiresAtMs");
    var consentReceiptPbHex :- StrOr(j, "consentReceiptPbHex", []);
    var termsId :- StrOr(j, "termsId", []);
    var termsVersion :- StrOr(j, "termsVersion", []);
    Ok(ConsentRecord(vehicleTaskId, effectiveStatus, receiptId, receiptExpiresAtMs, termsId, termsVersion,
                     [], [], 0, []))
  }

  function DownloadFrom(j: Json): Result<Record> {
    var packageId :- StrAt(j, "packageId");
    var packageRevision :- StrAt(j, "packageRevision");
    var etag :- StrAt(j, "etag");
    var offset :- I64At(j, "offset");
    var credentialExpiresAtMs :- I64Or(j, "credentialExpiresAtMs", 0);
    var verifyStatus :- StrAt(j, "verifyStatus");
    var stageResultId :- StrAt(j, "stageResultId");
    var stageResultDigest :- StrAt(j, "stageResultDigest");
    var ready :- BoolOr(j, "ready", false);
    Ok(DownloadRecord(packageId, packageRevision, etag, NonNegative(offset), Ascii("STORED_OBJECT"),
                      credentialExpiresAtMs, verifyStatus, stageResultId, stageResultDigest, ready))
  }

  /** The execution record, and the event numbers the old store kept beside it. */
  function ExecutionFrom(j: Json): Result<(Record, Record)> {
    var vehicleTaskId :- StrAt(j, "vehicleTaskId");
    var executionId :- StrAt(j, "executionId");
    var attemptNo :- U32At(j, "attemptNo");
    var permitId :- StrAt(j, "permitId");
    var permitToken :- StrAt(j, "permitToken");
    var controlRevision :- StrAt(j, "controlRevision");
    var validUntilMs :- I64At(j, "validUntilMs");
    var executionState :- StrAt(j, "executionState");
    var installPlanVersion :- StrOr(j, "installPlanVersion", []);
    var offlinePolicyPbHex :- StrOr(j, "offlinePolicyPbHex", []);
    var timeoutPolicyPbHex :- StrOr(j, "timeoutPolicyPbHex", []);
    var acceptedSequenceNo :- U64At(j, "acceptedSequenceNo");
    var nextSequenceNo :- U64At(j, "nextSequenceNo");
    Ok((ExecutionRecord(vehicleTaskId, executionId, attemptNo, permitId, permitToken,
                        RevisionToUint64(controlRevision), validUntilMs, executionState, installPlanVersion,
                        [], [], []),
        OutboxMetaRecord(nextSequenceNo, acceptedSequenceNo)))
  }

  function EventFrom(j: Json): Result<Record> {
    var sequenceNo :- U64At(j, "sequenceNo");
    var eventId :- StrAt(j, "eventId");
    var eventDigest :- StrAt(j, "eventDigest");
    var stage :- StrAt(j, "stage");
    var progressPercent :- U32Or(j, "progressPercent", 0);
    var result :- StrAt(j, "result");
    var timestampMs :- I64At(j, "timestampMs");
    var payloadSummary :- StrAt(j, "payloadSummary");
    var sendStatus :- StrAt(j, "sendStatus");
    var eventPbHex :- StrAt(j, "eventPbHex");
    Ok(EventRecord(sequenceNo, eventId, eventDigest, stage, result, progressPercent, timestampMs, payloadSummary,
                   sendStatus, []))
  }

  /** The outbox counters, and its entries. */
  function OutboxFrom(t: JsonText, j: Json): Result<(Record, seq<Record>)> {
    var nextSequenceNo :- U64At(j, "nextSequenceNo");
    var acceptedSequenceNo :- U64At(j, "acceptedSequenceNo");
    var entries :- Entries(t, j, EventFrom);
    Ok((OutboxMetaRecord(nextSequenceNo, acceptedSequenceNo), entries))
  }

  function ControlFrom(j: Json): Result<Record> {
    var controlRevision :- StrAt(j, "controlRevision");
    var commandType :- StrAt(j, "commandType");
    var applyMode :- StrAt(j, "applyMode");
    var expiresAtMs :- I64At(j, "expiresAtMs");
    var reason :- StrAt(j, "reason");
    var ackStatus :- StrAt(j, "ackStatus");
    var ackSequenceNo :- U64At(j, "ackSequenceNo");
    var appliedAtMs :- I64At(j, "appliedAtMs");
    Ok(ControlRecord([], RevisionToUint64(controlRevision), MapControlAction(commandType), Ascii("EXECUTION"),
                     MapApplyMode(applyMode), 0, expiresAtMs, reason, ackStatus, ackSequenceNo, appliedAtMs))
  }

  function PolicyFrom(j: Json): Result<Record> {
    var basePreferenceVersion :- StrAt(j, "basePreferenceVersion");
    var preferenceVersion :- StrAt(j, "preferenceVersion");
    var conflict :- BoolOr(j, "conflict", false);
    Ok(PolicyRecord([], basePreferenceVersion, preferenceVersion, [], conflict, 0))
  }

  function LogJobFrom(j: Json): Result<Record> {
    var logRequestId :- StrAt(j, "logRequestId");
    var objectKey :- StrAt(j, "objectKey");
    var digestHex :- StrAt(j, "digestHex");
    var sizeBytes :- I64At(j, "sizeBytes");
    var status :- StrAt(j, "status");
    var completedAtMs :- I64At(j, "completedAtMs");
    Ok(LogJobRecord(logRequestId, objectKey, digestHex, [], NonNegative(sizeBytes), status, completedAtMs))
  }

  // ------------------------------------------------------------------ one old key each

  function One(r: Result<Record>): Result<seq<Record>> {
    var record :- r;
    Ok([record])
  }

  datatype OldKey =
    OVehicleTask | OInventory | OConsent | ODownloads | OExecution | OEventOutbox | OControls | OPolicy | OLogJobs

  /** The records one old key turns into. */
  function RecordsFrom(t: JsonText, key: OldKey, b: ByteString): Result<seq<Record>> {
    var j :- LegacyJson(t, b);
    match key
    case OVehicleTask => One(VehicleTaskFrom(j))
    case OInventory => One(InventoryFrom(j))
    case OConsent => One(ConsentFrom(j))
    case ODownloads => Entries(t, j, DownloadFrom)
    case OExecution =>
      var e :- ExecutionFrom(j);
      Ok([e.0])
    case OEventOutbox =>
      var e :- OutboxFrom(t, j);
      Ok(e.1)
    case OControls => Entries(t, j, ControlFrom)
    case OPolicy => One(PolicyFrom(j))
    case OLogJobs => Entries(t, j, LogJobFrom)
  }

  /** The event counters an old key carries. */
  function CountersFrom(t: JsonText, key: OldKey, b: ByteString): Result<Record> {
    var j :- LegacyJson(t, b);
    match key
    case OExecution =>
      var e :- ExecutionFrom(j);
      Ok(e.1)
    case OEventOutbox =>
      var e :- OutboxFrom(t, j);
      Ok(e.0)
    case _ => Err("no counters")
  }

  lemma ControlSlot(j: Json, revision: ByteString)
    requires ControlFrom(j).Ok? && StrAt(j, "controlRevision") == Ok(revision)
    ensures SlotOf(ControlFrom(j).value) == Control(RevisionToUint64(revision))
  {
  }

  /** Old controls whose revisions are canonical numbers keep distinct keys. */
  lemma DistinctControlsKeepDistinctKeys(a: Json, b: Json, m: U64, n: U64)
    requires ControlFrom(a).Ok? && StrAt(a, "controlRevision") == Ok(Decimals.Decimal(m))
    requires ControlFrom(b).Ok? && StrAt(b, "controlRevision") == Ok(Decimals.Decimal(n))
    ensures Key(SlotOf(ControlFrom(a).value)) == Key(SlotOf(ControlFrom(b).value)) <==> m == n
  {
    var x, y := SlotOf(ControlFrom(a).value), SlotOf(ControlFrom(b).value);
    assert x == Control(m) by {
      ControlSlot(a, Decimals.Decimal(m));
      RevisionInvertsDecimal(m);
    }
    assert y == Control(n) by {
      ControlSlot(b, Decimals.Decimal(n));
      RevisionInvertsDecimal(n);
    }
    assert Key(x) == Key(y) <==> x == y by {
      KeysAreInjective(x, y);
    }
  }
}
