/** The four runtime states, their JSON form, and the chain of payload migrations. */
module StateSerializer {
  import opened Wrappers
  import opened Bytes
  import opened Envelope
  import opened Json
  import opened EcuOrder

  // ------------------------------------------------------------------------ states

  datatype JobPhase =
    Accepted | Collecting | Assembled | SubmitPrepared | SubmitUnknown | RetryWaiting | CompletedPendingCleanup

  datatype TriggerReason = AutoStart | ChangeEvent | CloudRequest | Recovery

  datatype PersistedFingerprints = PersistedFingerprints(
    algorithm: ByteString,
    canonicalization: ByteString,
    versionHex: ByteString,
    snapshotHex: ByteString,
    dedupeHex: ByteString)

  const UNKNOWN_FINGERPRINTS := PersistedFingerprints([], [], [], [], [])

  datatype DedupeEntry = DedupeEntry(
    requestId: ByteString,
    reportId: ByteString,
    snapshotSeq: U64,
    fingerprints: PersistedFingerprints,
    overallResult: ByteString,
    completedAt: I64,
    expiresAt: I64)

  datatype State =
    | SequenceState(schemaVersion: U32, highestAllocated: U64, updatedAt: I64)
    | LastSuccessState(
        schemaVersion: U32,
        reportId: ByteString,
        snapshotSeq: U64,
        completedAt: I64,
        registryVersion: ByteString,
        overallResult: CollectionStatus,
        fingerprints: PersistedFingerprints,
        snapshot: VehicleSoftwareSnapshot)
    | DedupeState(schemaVersion: U32, entries: seq<DedupeEntry>, maxEntries: U32, ttlMs: I64)
    | ActiveJobState(
        schemaVersion: U32,
        requestId: ByteString,
        reportId: ByteString,
        snapshotSeq: U64,
        reason: TriggerReason,
        phase: JobPhase,
        attempt: U32,
        nextRetryAt: I64,
        lastErrorCode: ByteString,
        idempotencyKey: ByteString,
        fingerprints: PersistedFingerprints)

  datatype Kind = Sequence | LastSuccess | Dedupe | ActiveJob

  function KindOf(s: State): Kind {
    match s
    case SequenceState(_, _, _) => Sequence
    case LastSuccessState(_, _, _, _, _, _, _, _) => LastSuccess
    case DedupeState(_, _, _, _) => Dedupe
    case ActiveJobState(_, _, _, _, _, _, _, _, _, _, _) => ActiveJob
  }

  function CurrentVersion(kind: Kind): U32 {
    if kind.Sequence? then 1 else 2
  }

  // ------------------------------------------------------------------------ names

  function VersionSourceName(s: VersionSource): string {
    match s case UDS_0x22 => "UDS_0x22" case SOMEIP_GET_VERSION => "SOMEIP_GET_VERSION"
  }

  function VersionSourceFrom(s: string): Result<VersionSource> {
    if s == "UDS_0x22" then Ok(UDS_0x22)
    else if s == "SOMEIP_GET_VERSION" then Ok(SOMEIP_GET_VERSION)
    else Err("bad source")
  }

  function EcuStatusName(s: EcuStatus): string {
    match s
    case OK => "OK"
    case MISSING => "MISSING"
    case NRC => "NRC"
    case TIMEOUT => "TIMEOUT"
    case UNREACHABLE => "UNREACHABLE"
    case PARSE_ERROR => "PARSE_ERROR"
  }

  function EcuStatusFrom(s: string): Result<EcuStatus> {
    if s == "OK" then Ok(OK)
    else if s == "MISSING" then Ok(MISSING)
    else if s == "NRC" then Ok(NRC)
    else if s == "TIMEOUT" then Ok(TIMEOUT)
    else if s == "UNREACHABLE" then Ok(UNREACHABLE)
    else if s == "PARSE_ERROR" then Ok(PARSE_ERROR)
    else Err("bad status")
  }

  function VinSourceName(s: VinSource): string {
    match s case PROVISIONED => "PROVISIONED" case VIN_UNKNOWN => "UNKNOWN"
  }

  function VinSourceFrom(s: string): Result<VinSource> {
    if s == "PROVISIONED" then Ok(PROVISIONED)
    else if s == "UNKNOWN" then Ok(VIN_UNKNOWN)
    else Err("bad vin_source")
  }

  function BaselineSourceName(s: BaselineSource): string {
    match s case FACTORY => "FACTORY" case LAST_OTA => "LAST_OTA" case BASELINE_UNKNOWN => "UNKNOWN"
  }

  function BaselineSourceFrom(s: string): Result<BaselineSource> {
    if s == "FACTORY" then Ok(FACTORY)
    else if s == "LAST_OTA" then Ok(LAST_OTA)
    else if s == "UNKNOWN" then Ok(BASELINE_UNKNOWN)
    else Err("bad baseline_source")
  }

  function CollectionStatusName(s: CollectionStatus): string {
    match s case ALL_OK => "ALL_OK" case PARTIAL => "PARTIAL" case FAILED => "FAILED"
  }

  function CollectionStatusFrom(s: string): Result<CollectionStatus> {
    if s == "ALL_OK" then Ok(ALL_OK)
    else if s == "PARTIAL" then Ok(PARTIAL)
    else if s == "FAILED" then Ok(FAILED)
    else Err("bad overallResult")
  }

  function TriggerReasonName(r: TriggerReason): string {
    match r
    case AutoStart => "AutoStart"
    case ChangeEvent => "ChangeEvent"
    case CloudRequest => "CloudRequest"
    case Recovery => "Recovery"
  }

  function TriggerReasonFrom(s: string): Result<TriggerReason> {
    if s == "AutoStart" then Ok(AutoStart)
    else if s == "ChangeEvent" then Ok(ChangeEvent)
    else if s == "CloudRequest" then Ok(CloudRequest)
    else if s == "Recovery" then Ok(Recovery)
    else Err("bad reason")
  }

  function JobPhaseName(p: JobPhase): string {
    match p
    case Accepted => "Accepted"
    case Collecting => "Collecting"
    case Assembled => "Assembled"
    case SubmitPrepared => "SubmitPrepared"
    case SubmitUnknown => "SubmitUnknown"
    case RetryWaiting => "RetryWaiting"
    case CompletedPendingCleanup => "CompletedPendingCleanup"
  }

  function JobPhaseFrom(s: string): Result<JobPhase> {
    if s == "Accepted" then Ok(Accepted)
    else if s == "Collecting" then Ok(Collecting)
    else if s == "Assembled" then Ok(Assembled)
    else if s == "SubmitPrepared" then Ok(SubmitPrepared)
    else if s == "SubmitUnknown" then Ok(SubmitUnknown)
    else if s == "RetryWaiting" then Ok(RetryWaiting)
    else if s == "CompletedPendingCleanup" then Ok(CompletedPendingCleanup)
    else Err("bad phase")
  }

  /** A name written as a JSON string. */
  function Name(s: string): Json {
    JStr(Ascii(s))
  }

  function NameAt(j: Json, key: string): Result<string> {
    var s :- StrAt(j, key);
    Ok(Chars(s))
  }

  // Every enumeration name is read back as the value it was written for.

  lemma VersionSourceReadsBack(s: VersionSource)
    ensures VersionSourceFrom(Chars(Ascii(VersionSourceName(s)))) == Ok(s)
  {
    CharsOfAscii(VersionSourceName(s));
  }

  lemma EcuStatusReadsBack(s: EcuStatus)
    ensures EcuStatusFrom(Chars(Ascii(EcuStatusName(s)))) == Ok(s)
  {
    CharsOfAscii(EcuStatusName(s));
  }

  lemma VinSourceReadsBack(s: VinSource)
    ensures VinSourceFrom(Chars(Ascii(VinSourceName(s)))) == Ok(s)
  {
    CharsOfAscii(VinSourceName(s));
  }

  lemma BaselineSourceReadsBack(s: BaselineSource)
    ensures BaselineSourceFrom(Chars(Ascii(BaselineSourceName(s)))) == Ok(s)
  {
    CharsOfAscii(BaselineSourceName(s));
  }

  lemma CollectionStatusReadsBack(s: CollectionStatus)
    ensures CollectionStatusFrom(Chars(Ascii(CollectionStatusName(s)))) == Ok(s)
  {
    CharsOfAscii(CollectionStatusName(s));
  }

  lemma TriggerReasonReadsBack(r: TriggerReason)
    ensures TriggerReasonFrom(Chars(Ascii(TriggerReasonName(r)))) == Ok(r)
  {
    CharsOfAscii(TriggerReasonName(r));
  }

  lemma JobPhaseReadsBack(p: JobPhase)
    ensures JobPhaseFrom(Chars(Ascii(JobPhaseName(p)))) == Ok(p)
  {
    CharsOfAscii(JobPhaseName(p));
  }

  // ---------------------------------------------------------------------- JSON forms

  function FingerprintsToJson(f: PersistedFingerprints): Json {
    JObj(map[
      "algorithm" := JStr(f.algorithm),
      "canonicalization" := JStr(f.canonicalization),
      "versionFingerprintHex" := JStr(f.versionHex),
      "snapshotFingerprintHex" := JStr(f.snapshotHex),
      "dedupeKeyHex" := JStr(f.dedupeHex)])
  }

  function FingerprintsFromJson(j: Json): Result<PersistedFingerprints> {
    var algorithm :- StrOr(j, "algorithm", []);
    var canonicalization :- StrOr(j, "canonicalization", []);
    var versionHex :- StrOr(j, "versionFingerprintHex", []);
    var snapshotHex :- StrOr(j, "snapshotFingerprintHex", []);
    var dedupeHex :- StrOr(j, "dedupeKeyHex", []);
    var f := PersistedFingerprints(algorithm, canonicalization, versionHex, snapshotHex, dedupeHex);
    if ValidFingerprints(f) then Ok(f) else Err("bad fingerprints")
  }

  predicate IsHex64(h: ByteString) {
    |h| == 64 && forall i :: 0 <= i < 64 ==> 48 <= h[i] <= 57 || 97 <= h[i] <= 102
  }

  /** A digest may be absent; a present one needs the known algorithm and format. */
  predicate ValidFingerprints(f: PersistedFingerprints) {
    && (f.versionHex != [] || f.snapshotHex != [] || f.dedupeHex != [] ==>
          f.algorithm == Ascii("sha-256") && f.canonicalization == Ascii("cgw-fota-snapshot-v1"))
    && (f.versionHex == [] || IsHex64(f.versionHex))
    && (f.snapshotHex == [] || IsHex64(f.snapshotHex))
    && (f.dedupeHex == [] || IsHex64(f.dedupeHex))
  }

  function WithOptional(fields: map<string, Json>, key: string, v: Option<ByteString>): map<string, Json> {
    match v
    case None => fields
    case Some(s) => fields[key := JStr(s)]
  }

  function EcuFields(e: EcuVersionEntry): map<string, Json> {
    map[
      "ecu_id" := JStr(e.ecuId),
      "source" := Name(VersionSourceName(e.source)),
      "status" := Name(EcuStatusName(e.status))]
  }

  function EcuToJson(e: EcuVersionEntry): Json {
    JObj(WithOptional(WithOptional(WithOptional(WithOptional(EcuFields(e),
      "part_number", e.partNumber), "sw_version", e.swVersion), "hw_version", e.hwVersion), "error_code", e.errorCode))
  }

  function EcuFromJson(j: Json): Result<EcuVersionEntry> {
    var ecuId :- StrAt(j, "ecu_id");
    var sourceName :- NameAt(j, "source");
    var source :- VersionSourceFrom(sourceName);
    var statusName :- NameAt(j, "status");
    var status :- EcuStatusFrom(statusName);
    var partNumber :- OptStrAt(j, "part_number");
    var swVersion :- OptStrAt(j, "sw_version");
    var hwVersion :- OptStrAt(j, "hw_version");
    var errorCode :- OptStrAt(j, "error_code");
    Ok(EcuVersionEntry(ecuId, partNumber, swVersion, hwVersion, source, status, errorCode))
  }

  function EcusToJson(ecus: seq<EcuVersionEntry>): seq<Json> {
    if ecus == [] then [] else [EcuToJson(ecus[0])] + EcusToJson(ecus[1..])
  }

  function EcusFromJson(items: seq<Json>): Result<seq<EcuVersionEntry>> {
    if items == [] then Ok([]) else
    var e :- EcuFromJson(items[0]);
    var es :- EcusFromJson(items[1..]);
    Ok([e] + es)
  }

  function SnapshotToJson(s: VehicleSoftwareSnapshot): Json {
    JObj(WithOptional(map[
      "vin" := JStr(s.vin),
      "vin_source" := Name(VinSourceName(s.vinSource)),
      "baseline_source" := Name(BaselineSourceName(s.baselineSource)),
      "registry_version" := JStr(s.registryVersion),
      "collected_at" := JStr(s.collectedAt),
      "overall_result" := Name(CollectionStatusName(s.overallResult)),
      "snapshot_seq" := JInt(s.snapshotSeq),
      "ecu_list" := JArr(EcusToJson(s.ecuList))], "baseline_id", s.baselineId))
  }

  function SnapshotFromJson(t: JsonText, j: Json): Result<VehicleSoftwareSnapshot> {
    var vin :- StrAt(j, "vin");
    var vinSourceName :- StrOr(j, "vin_source", Ascii("UNKNOWN"));
    var vinSource :- VinSourceFrom(Chars(vinSourceName));
    var baselineId :- OptStrAt(j, "baseline_id");
    var baselineName :- NameAt(j, "baseline_source");
    var baselineSource :- BaselineSourceFrom(baselineName);
    var registryVersion :- StrAt(j, "registry_version");
    var collectedAt :- StrAt(j, "collected_at");
    var resultName :- NameAt(j, "overall_result");
    var overallResult :- CollectionStatusFrom(resultName);
    var snapshotSeq :- U64At(j, "snapshot_seq");
    var list :- At(j, "ecu_list");
    var ecuList :- EcusFromJson(Elements(t, list));
    Ok(VehicleSoftwareSnapshot(vin, vinSource, baselineId, baselineSource, registryVersion, collectedAt,
                               overallResult, snapshotSeq, ecuList))
  }

  function EntryToJson(e: DedupeEntry): Json {
    JObj(map[
      "requestId" := JStr(e.requestId),
      "reportId" := JStr(e.reportId),
      "snapshotSeq" := JInt(e.snapshotSeq),
      "fingerprints" := FingerprintsToJson(e.fingerprints),
      "overallResult" := JStr(e.overallResult),
      "completedAt" := JInt(e.completedAt),
      "expiresAt" := JInt(e.expiresAt)])
  }

  function FingerprintsOr(j: Json): Result<PersistedFingerprints> {
    var v :- ValueOr(j, "fingerprints", JObj(map[]));
    FingerprintsFromJson(v)
  }

  function EntryFromJson(j: Json): Result<DedupeEntry> {
    var requestId :- StrAt(j, "requestId");
    var reportId :- StrAt(j, "reportId");
    var snapshotSeq :- U64At(j, "snapshotSeq");
    var fingerprints :- FingerprintsOr(j);
    var overallResult :- StrAt(j, "overallResult");
    var completedAt :- I64At(j, "completedAt");
    var expiresAt :- I64At(j, "expiresAt");
    Ok(DedupeEntry(requestId, reportId, snapshotSeq, fingerprints, overallResult, completedAt, expiresAt))
  }

  function EntriesToJson(es: seq<DedupeEntry>): seq<Json> {
    if es == [] then [] else [EntryToJson(es[0])] + EntriesToJson(es[1..])
  }

  function EntriesFromJson(items: seq<Json>): Result<seq<DedupeEntry>> {
    if items == [] then Ok([]) else
    var e :- EntryFromJson(items[0]);
    var es :- EntriesFromJson(items[1..]);
    Ok([e] + es)
  }

  /** The members of a last-success record that every version has. */
  function LastSuccessMembers(s: State): map<string, Json>
    requires s.LastSuccessState?
  {
    map[
      "reportId" := JStr(s.reportId),
      "snapshotSeq" := JInt(s.snapshotSeq),
      "completedAt" := JInt(s.completedAt),
      "registryVersion" := JStr(s.registryVersion),
      "overallResult" := Name(CollectionStatusName(s.overallResult)),
      "snapshot" := SnapshotToJson(s.snapshot)]
  }

  /** The members of an active-job record that every version has. */
  function ActiveJobMembers(s: State): map<string, Json>
    requires s.ActiveJobState?
  {
    map[
      "requestId" := JStr(s.requestId),
      "reportId" := JStr(s.reportId),
      "snapshotSeq" := JInt(s.snapshotSeq),
      "reason" := Name(TriggerReasonName(s.reason)),
      "phase" := Name(JobPhaseName(s.phase)),
      "attempt" := JInt(s.attempt),
      "nextRetryAt" := JInt(s.nextRetryAt),
      "lastErrorCode" := JStr(s.lastErrorCode)]
  }

  function DedupeMembers(version: U32, entries: seq<Json>, maxEntries: U32, ttlMs: I64): map<string, Json> {
    map[
      "schemaVersion" := JInt(version),
      "entries" := JArr(entries),
      "maxEntries" := JInt(maxEntries),
      "ttlMs" := JInt(ttlMs)]
  }

  function ToJson(s: State): Json {
    match s
    case SequenceState(_, _, _) =>
      JObj(map[
        "highestAllocated" := JInt(s.highestAllocated),
        "schemaVersion" := JInt(s.schemaVersion),
        "updatedAt" := JInt(s.updatedAt)])
    case LastSuccessState(_, _, _, _, _, _, _, _) =>
      JObj(LastSuccessMembers(s)
        ["fingerprints" := FingerprintsToJson(s.fingerprints)]["schemaVersion" := JInt(s.schemaVersion)])
    case DedupeState(_, _, _, _) =>
      JObj(DedupeMembers(s.schemaVersion, EntriesToJson(s.entries), s.maxEntries, s.ttlMs))
    case ActiveJobState(_, _, _, _, _, _, _, _, _, _, _) =>
      JObj(ActiveJobMembers(s)["idempotencyKey" := JStr(s.idempotencyKey)]
        ["fingerprints" := FingerprintsToJson(s.fingerprints)]["schemaVersion" := JInt(s.schemaVersion)])
  }

  function SequenceFromJson(j: Json): Result<State> {
    var highestAllocated :- U64At(j, "highestAllocated");
    var updatedAt :- I64Or(j, "updatedAt", 0);
    Ok(SequenceState(CurrentVersion(Sequence), highestAllocated, updatedAt))
  }

  function LastSuccessFromJson(t: JsonText, j: Json): Result<State> {
    var reportId :- StrAt(j, "reportId");
    var snapshotSeq :- U64At(j, "snapshotSeq");
    var completedAt :- I64At(j, "completedAt");
    var registryVersion :- StrAt(j, "registryVersion");
    var resultName :- NameAt(j, "overallResult");
    var overallResult :- CollectionStatusFrom(resultName);
    var fingerprints :- FingerprintsOr(j);
    var snapshotJson :- At(j, "snapshot");
    var snapshot :- SnapshotFromJson(t, snapshotJson);
    if snapshot.snapshotSeq != snapshotSeq then Err("last_success snapshotSeq mismatch") else
    Ok(LastSuccessState(CurrentVersion(LastSuccess), reportId, snapshotSeq, completedAt, registryVersion,
                        overallResult, fingerprints, snapshot))
  }

  function DedupeFromJson(t: JsonText, j: Json): Result<State> {
    var list :- At(j, "entries");
    var entries :- EntriesFromJson(Elements(t, list));
    var maxEntries :- U32Or(j, "maxEntries", 0);
    var ttlMs :- I64Or(j, "ttlMs", 0);
    Ok(DedupeState(CurrentVersion(Dedupe), entries, maxEntries, ttlMs))
  }

  function ActiveJobFromJson(j: Json): Result<State> {
    var requestId :- StrAt(j, "requestId");
    var reportId :- StrAt(j, "reportId");
    var snapshotSeq :- U64At(j, "snapshotSeq");
    var reasonName :- NameAt(j, "reason");
    var reason :- TriggerReasonFrom(reasonName);
    var phaseName :- NameAt(j, "phase");
    var phase :- JobPhaseFrom(phaseName);
    var attempt :- U32At(j, "attempt");
    var nextRetryAt :- I64At(j, "nextRetryAt");
    var lastErrorCode :- StrAt(j, "lastErrorCode");
    var idempotencyKey :- StrOr(j, "idempotencyKey", []);
    var fingerprints :- FingerprintsOr(j);
    Ok(ActiveJobState(CurrentVersion(ActiveJob), requestId, reportId, snapshotSeq, reason, phase, attempt,
                      nextRetryAt, lastErrorCode, idempotencyKey, fingerprints))
  }

  /** Reads a payload already brought to the current version. */
  function FromJson(kind: Kind, t: JsonText, j: Json): Result<State> {
    var version :- U32Or(j, "schemaVersion", CurrentVersion(kind));
    if version != CurrentVersion(kind) then Err("schemaVersion mismatch after migration") else
    match kind
    case Sequence => SequenceFromJson(j)
    case LastSuccess => LastSuccessFromJson(t, j)
    case Dedupe => DedupeFromJson(t, j)
    case ActiveJob => ActiveJobFromJson(j)
  }

  // ---------------------------------------------------------------- payload migrations

  function MigrateEntries(items: seq<Json>): Result<seq<Json>> {
    if items == [] then Ok([]) else
    var erased :- EraseKey(items[0], "fingerprint");
    var item :- SetIfMissing(erased, "fingerprints", FingerprintsToJson(UNKNOWN_FINGERPRINTS));
    var rest :- MigrateEntries(items[1..]);
    Ok([item] + rest)
  }

  /** One step of the chain, from version `v` to `v + 1`. */
  function MigrateJson(kind: Kind, j: Json, v: nat): Result<Json> {
    match kind
    case Sequence =>
      var a :- SetIfMissing(j, "schemaVersion", JInt(1));
      SetIfMissing(a, "updatedAt", JInt(0))
    case LastSuccess =>
      if v == 0 then
        var a :- SetIfMissing(j, "schemaVersion", JInt(1));
        SetIfMissing(a, "fingerprint", JStr([]))
      else
        var a :- EraseKey(j, "fingerprint");
        var b :- SetIfMissing(a, "fingerprints", FingerprintsToJson(UNKNOWN_FINGERPRINTS));
        SetKey(b, "schemaVersion", JInt(2))
    case Dedupe =>
      if v == 0 then
        var a :- SetIfMissing(j, "schemaVersion", JInt(1));
        var b :- if Contains(a, "maxSize") && !Contains(a, "maxEntries")
          then (var c :- SetKey(a, "maxEntries", a.fields["maxSize"]); EraseKey(c, "maxSize"))
          else Ok(a);
        SetIfMissing(b, "ttlMs", JInt(0))
      else
        var a :- SetIfMissing(j, "schemaVersion", JInt(2));
        var b :- if Contains(a, "entries") && a.fields["entries"].JArr?
          then (var items :- MigrateEntries(a.fields["entries"].items); SetKey(a, "entries", JArr(items)))
          else Ok(a);
        SetKey(b, "schemaVersion", JInt(2))
    case ActiveJob =>
      if v == 0 then
        var a :- SetIfMissing(j, "schemaVersion", JInt(1));
        SetIfMissing(a, "idempotencyKey", JStr([]))
      else
        var a :- SetIfMissing(j, "schemaVersion", JInt(2));
        var b :- SetIfMissing(a, "fingerprints", FingerprintsToJson(UNKNOWN_FINGERPRINTS));
        SetKey(b, "schemaVersion", JInt(2))
  }

  function MigratePayload(kind: Kind, t: JsonText, payload: ByteString, v: nat): Result<ByteString> {
    if v >= CurrentVersion(kind) then Ok(payload) else
    var j :- Parse(t, payload);
    var migrated :- MigrateJson(kind, j, v);
    Ok(t.dump(migrated))
  }

  function Upgrade(kind: Kind, t: JsonText, payload: ByteString, v: nat): Result<ByteString>
    decreases CurrentVersion(kind) - v
  {
    if v >= CurrentVersion(kind) then Ok(payload) else
    var next :- MigratePayload(kind, t, payload, v);
    Upgrade(kind, t, next, v + 1)
  }

  // -------------------------------------------------------------------- encode, decode

  function Encode(s: State, t: JsonText, now: I64): ByteString {
    EncodeEnvelope(s.schemaVersion, t.dump(ToJson(s)), now)
  }

  function Decode(kind: Kind, t: JsonText, b: ByteString): Result<State> {
    var h :- ParseHeader(b);
    if h.schemaVersion > CurrentVersion(kind) then Err("unknown newer schemaVersion") else
    var payload :- Upgrade(kind, t, ExtractPayload(b, h), h.schemaVersion);
    var j :- Parse(t, payload);
    FromJson(kind, t, j)
  }

  /** The decoder as written: a loop brings the payload up version by version. */
  method DecodeState(kind: Kind, t: JsonText, b: ByteString) returns (r: Result<State>)
    ensures r == Decode(kind, t, b)
  {
    var header := ParseHeader(b);
    if header.Err? {
      return Err(header.error);
    }
    var h := header.value;
    if h.schemaVersion > CurrentVersion(kind) {
      return Err("unknown newer schemaVersion");
    }
    var payload := ExtractPayload(b, h);
    var v: nat := h.schemaVersion;
    while v < CurrentVersion(kind)
      invariant Upgrade(kind, t, payload, v) == Upgrade(kind, t, ExtractPayload(b, h), h.schemaVersion)
    {
      var next := MigratePayload(kind, t, payload, v);
      if next.Err? {
        return Err(next.error);
      }
      payload := next.value;
      v := v + 1;
    }
    var j := Parse(t, payload);
    if j.Err? {
      return Err(j.error);
    }
    r := FromJson(kind, t, j.value);
  }

  // -------------------------------------------------------------------- reading back

  ghost predicate WellFormed(s: State) {
    && s.schemaVersion == CurrentVersion(KindOf(s))
    && match s
       case SequenceState(_, _, _) => true
       case LastSuccessState(_, _, _, _, _, _, _, _) =>
         ValidFingerprints(s.fingerprints) && s.snapshot.snapshotSeq == s.snapshotSeq
       case DedupeState(_, _, _, _) => forall e :: e in s.entries ==> ValidFingerprints(e.fingerprints)
       case ActiveJobState(_, _, _, _, _, _, _, _, _, _, _) => ValidFingerprints(s.fingerprints)
  }

  lemma FingerprintsReadBack(f: PersistedFingerprints)
    requires ValidFingerprints(f)
    ensures FingerprintsFromJson(FingerprintsToJson(f)) == Ok(f)
  {
  }

  lemma EcuOptionsReadBack(e: EcuVersionEntry)
    ensures var j := EcuToJson(e);
            && OptStrAt(j, "part_number") == Ok(e.partNumber)
            && OptStrAt(j, "sw_version") == Ok(e.swVersion)
            && OptStrAt(j, "hw_version") == Ok(e.hwVersion)
            && OptStrAt(j, "error_code") == Ok(e.errorCode)
  {
    var f0 := EcuFields(e);
    var f1 := WithOptional(f0, "part_number", e.partNumber);
    var f2 := WithOptional(f1, "sw_version", e.swVersion);
    var f3 := WithOptional(f2, "hw_version", e.hwVersion);
    OptionalReadsBack(f0, "part_number", e.partNumber, "sw_version");
    OptionalReadsBack(f0, "part_number", e.partNumber, "hw_version");
    OptionalReadsBack(f0, "part_number", e.partNumber, "error_code");
    OptionalReadsBack(f1, "sw_version", e.swVersion, "part_number");
    OptionalReadsBack(f1, "sw_version", e.swVersion, "hw_version");
    OptionalReadsBack(f1, "sw_version", e.swVersion, "error_code");
    OptionalReadsBack(f2, "hw_version", e.hwVersion, "part_number");
    OptionalReadsBack(f2, "hw_version", e.hwVersion, "sw_version");
    OptionalReadsBack(f2, "hw_version", e.hwVersion, "error_code");
    OptionalReadsBack(f3, "error_code", e.errorCode, "part_number");
    OptionalReadsBack(f3, "error_code", e.errorCode, "sw_version");
    OptionalReadsBack(f3, "error_code", e.errorCode, "hw_version");
  }

  /** An optional field reads back, and does not disturb another one. */
  lemma OptionalReadsBack(fields: map<string, Json>, key: string, v: Option<ByteString>, other: string)
    requires key !in fields && key != other
    ensures OptStrAt(JObj(WithOptional(fields, key, v)), key) == Ok(v)
    ensures OptStrAt(JObj(WithOptional(fields, key, v)), other) == OptStrAt(JObj(fields), other)
    ensures other in WithOptional(fields, key, v) <==> other in fields
  {
  }

  lemma EcuReadsBack(e: EcuVersionEntry)
    ensures EcuFromJson(EcuToJson(e)) == Ok(e)
  {
    VersionSourceReadsBack(e.source);
    EcuStatusReadsBack(e.status);
    EcuOptionsReadBack(e);
  }

  lemma {:induction false} EcusReadBack(ecus: seq<EcuVersionEntry>)
    ensures EcusFromJson(EcusToJson(ecus)) == Ok(ecus)
  {
    if ecus != [] {
      EcuReadsBack(ecus[0]);
      EcusReadBack(ecus[1..]);
      assert ecus == [ecus[0]] + ecus[1..];
    }
  }

  lemma SnapshotNamesReadBack(s: VehicleSoftwareSnapshot)
    ensures var j := SnapshotToJson(s);
            && StrOr(j, "vin_source", Ascii("UNKNOWN")) == Ok(Ascii(VinSourceName(s.vinSource)))
            && StrAt(j, "baseline_source") == Ok(Ascii(BaselineSourceName(s.baselineSource)))
            && StrAt(j, "overall_result") == Ok(Ascii(CollectionStatusName(s.overallResult)))
            && OptStrAt(j, "baseline_id") == Ok(s.baselineId)
  {
  }

  lemma SnapshotTextsReadBack(s: VehicleSoftwareSnapshot)
    ensures var j := SnapshotToJson(s);
            && StrAt(j, "vin") == Ok(s.vin)
            && StrAt(j, "registry_version") == Ok(s.registryVersion)
            && StrAt(j, "collected_at") == Ok(s.collectedAt)
            && U64At(j, "snapshot_seq") == Ok(s.snapshotSeq)
            && At(j, "ecu_list") == Ok(JArr(EcusToJson(s.ecuList)))
  {
  }

  lemma SnapshotReadsBack(t: JsonText, s: VehicleSoftwareSnapshot)
    ensures SnapshotFromJson(t, SnapshotToJson(s)) == Ok(s)
  {
    VinSourceReadsBack(s.vinSource);
    BaselineSourceReadsBack(s.baselineSource);
    CollectionStatusReadsBack(s.overallResult);
    EcusReadBack(s.ecuList);
    SnapshotNamesReadBack(s);
    SnapshotTextsReadBack(s);
  }

  lemma EntryReadsBack(e: DedupeEntry)
    requires ValidFingerprints(e.fingerprints)
    ensures EntryFromJson(EntryToJson(e)) == Ok(e)
  {
    FingerprintsReadBack(e.fingerprints);
    I64RoundTrip(e.completedAt);
    I64RoundTrip(e.expiresAt);
  }

  lemma {:induction false} EntriesReadBack(es: seq<DedupeEntry>)
    requires forall e :: e in es ==> ValidFingerprints(e.fingerprints)
    ensures EntriesFromJson(EntriesToJson(es)) == Ok(es)
  {
    if es != [] {
      EntryReadsBack(es[0]);
      EntriesReadBack(es[1..]);
      assert es == [es[0]] + es[1..];
    }
  }

  lemma SequenceReadsBack(s: State)
    requires WellFormed(s) && s.SequenceState?
    ensures SequenceFromJson(ToJson(s)) == Ok(s)
  {
    I64RoundTrip(s.updatedAt);
  }

  lemma LastSuccessMembersReadBack(s: State)
    requires s.LastSuccessState?
    ensures var j := ToJson(s);
            && StrAt(j, "reportId") == Ok(s.reportId)
            && U64At(j, "snapshotSeq") == Ok(s.snapshotSeq)
            && I64At(j, "completedAt") == Ok(s.completedAt)
            && StrAt(j, "registryVersion") == Ok(s.registryVersion)
            && StrAt(j, "overallResult") == Ok(Ascii(CollectionStatusName(s.overallResult)))
            && ValueOr(j, "fingerprints", JObj(map[])) == Ok(FingerprintsToJson(s.fingerprints))
            && At(j, "snapshot") == Ok(SnapshotToJson(s.snapshot))
  {
    I64RoundTrip(s.completedAt);
  }

  lemma LastSuccessReadsBack(t: JsonText, s: State)
    requires WellFormed(s) && s.LastSuccessState?
    ensures LastSuccessFromJson(t, ToJson(s)) == Ok(s)
  {
    LastSuccessMembersReadBack(s);
    CollectionStatusReadsBack(s.overallResult);
    FingerprintsReadBack(s.fingerprints);
    SnapshotReadsBack(t, s.snapshot);
  }

  lemma DedupeMembersReadBack(version: U32, entries: seq<Json>, maxEntries: U32, ttlMs: I64)
    ensures var j := JObj(DedupeMembers(version, entries, maxEntries, ttlMs));
            && At(j, "entries") == Ok(JArr(entries))
            && U32Or(j, "maxEntries", 0) == Ok(maxEntries)
            && I64Or(j, "ttlMs", 0) == Ok(ttlMs)
  {
    I64RoundTrip(ttlMs);
  }

  lemma DedupeReadsBack(t: JsonText, s: State)
    requires WellFormed(s) && s.DedupeState?
    ensures DedupeFromJson(t, ToJson(s)) == Ok(s)
  {
    DedupeMembersReadBack(s.schemaVersion, EntriesToJson(s.entries), s.maxEntries, s.ttlMs);
    EntriesReadBack(s.entries);
  }

  lemma ActiveJobTextsReadBack(s: State)
    requires s.ActiveJobState?
    ensures var j := ToJson(s);
            && StrAt(j, "requestId") == Ok(s.requestId)
            && StrAt(j, "reportId") == Ok(s.reportId)
            && StrAt(j, "reason") == Ok(Ascii(TriggerReasonName(s.reason)))
            && StrAt(j, "phase") == Ok(Ascii(JobPhaseName(s.phase)))
            && StrAt(j, "lastErrorCode") == Ok(s.lastErrorCode)
            && StrOr(j, "idempotencyKey", []) == Ok(s.idempotencyKey)
  {
  }

  lemma ActiveJobNumbersReadBack(s: State)
    requires s.ActiveJobState?
    ensures var j := ToJson(s);
            && U64At(j, "snapshotSeq") == Ok(s.snapshotSeq)
            && U32At(j, "attempt") == Ok(s.attempt)
            && I64At(j, "nextRetryAt") == Ok(s.nextRetryAt)
            && ValueOr(j, "fingerprints", JObj(map[])) == Ok(FingerprintsToJson(s.fingerprints))
  {
    I64RoundTrip(s.nextRetryAt);
  }

  lemma ActiveJobReadsBack(s: State)
    requires WellFormed(s) && s.ActiveJobState?
    ensures ActiveJobFromJson(ToJson(s)) == Ok(s)
  {
    ActiveJobTextsReadBack(s);
    ActiveJobNumbersReadBack(s);
    TriggerReasonReadsBack(s.reason);
    JobPhaseReadsBack(s.phase);
    FingerprintsReadBack(s.fingerprints);
  }

  /** Every well-formed state of every kind is read back from its own JSON. */
  lemma JsonReadsBack(t: JsonText, s: State)
    requires WellFormed(s)
    ensures FromJson(KindOf(s), t, ToJson(s)) == Ok(s)
  {
    assert U32Or(ToJson(s), "schemaVersion", CurrentVersion(KindOf(s))) == Ok(s.schemaVersion);
    match KindOf(s)
    case Sequence => SequenceReadsBack(s);
    case LastSuccess => LastSuccessReadsBack(t, s);
    case Dedupe => DedupeReadsBack(t, s);
    case ActiveJob => ActiveJobReadsBack(s);
  }

  lemma {:induction false} EntriesAreValid(items: seq<Json>)
    requires EntriesFromJson(items).Ok?
    ensures forall e :: e in EntriesFromJson(items).value ==> ValidFingerprints(e.fingerprints)
  {
    if items != [] {
      EntriesAreValid(items[1..]);
    }
  }

  /** Decoding validates: what it returns is of its kind, current and well-formed. */
  lemma DecodedIsWellFormed(kind: Kind, t: JsonText, b: ByteString)
    requires Decode(kind, t, b).Ok?
    ensures KindOf(Decode(kind, t, b).value) == kind && WellFormed(Decode(kind, t, b).value)
    ensures ParseHeader(b).Ok? && ParseHeader(b).value.schemaVersion <= CurrentVersion(kind)
  {
    var h := ParseHeader(b).value;
    var j := Parse(t, Upgrade(kind, t, ExtractPayload(b, h), h.schemaVersion).value).value;
    ReadIsWellFormed(kind, t, j);
  }

  lemma ReadIsWellFormed(kind: Kind, t: JsonText, j: Json)
    requires FromJson(kind, t, j).Ok?
    ensures KindOf(FromJson(kind, t, j).value) == kind && WellFormed(FromJson(kind, t, j).value)
  {
    match kind
    case Sequence => assert SequenceFromJson(j).Ok?;
    case LastSuccess => LastSuccessIsWellFormed(t, j);
    case Dedupe => DedupeIsWellFormed(t, j);
    case ActiveJob => ActiveJobIsWellFormed(j);
  }

  lemma LastSuccessIsWellFormed(t: JsonText, j: Json)
    requires LastSuccessFromJson(t, j).Ok?
    ensures LastSuccessFromJson(t, j).value.LastSuccessState? && WellFormed(LastSuccessFromJson(t, j).value)
  {
  }

  lemma ActiveJobIsWellFormed(j: Json)
    requires ActiveJobFromJson(j).Ok?
    ensures ActiveJobFromJson(j).value.ActiveJobState? && WellFormed(ActiveJobFromJson(j).value)
  {
  }

  lemma DedupeIsWellFormed(t: JsonText, j: Json)
    requires DedupeFromJson(t, j).Ok?
    ensures DedupeFromJson(t, j).value.DedupeState? && WellFormed(DedupeFromJson(t, j).value)
  {
    EntriesAreValid(Elements(t, At(j, "entries").value));
  }

  /** The length cast of the envelope loses nothing. */
  predicate Storable(s: State, t: JsonText) {
    |t.dump(ToJson(s))| < U32_SIZE
  }

  lemma EncodedDecodes(t: JsonText, s: State, now: I64)
    requires Faithful(t) && WellFormed(s) && Storable(s, t)
    ensures Decode(KindOf(s), t, Encode(s, t, now)) == Ok(s)
    ensures ParseHeader(Encode(s, t, now)).Ok?
    ensures ParseHeader(Encode(s, t, now)).value.schemaVersion == CurrentVersion(KindOf(s))
  {
    EncodeParsesBack(s.schemaVersion, t.dump(ToJson(s)), now);
    assert t.parse(t.dump(ToJson(s))) == Some(ToJson(s));
    JsonReadsBack(t, s);
  }

  /** Rewriting a decodable record of any supported version in the current format
      keeps what it decodes to. */
  lemma UpgradeKeepsMeaning(kind: Kind, t: JsonText, stored: ByteString, now: I64)
    requires Faithful(t) && Decode(kind, t, stored).Ok? && Storable(Decode(kind, t, stored).value, t)
    ensures Decode(kind, t, Encode(Decode(kind, t, stored).value, t, now)) == Decode(kind, t, stored)
  {
    DecodedIsWellFormed(kind, t, stored);
    EncodedDecodes(t, Decode(kind, t, stored).value, now);
  }

  // ------------------------------------------------------------- the old formats' meaning

  /** A state as the format of version `v` wrote it: no field the version did not know, and
      whatever text it had as the single fingerprint of the state or of each entry. */
  function OldJson(s: State, v: nat, text: nat -> ByteString): Json
    requires v <= CurrentVersion(KindOf(s))
  {
    if v == CurrentVersion(KindOf(s)) then ToJson(s) else
    match s
    case SequenceState(_, _, _) =>
      JObj(map["highestAllocated" := JInt(s.highestAllocated)])
    case LastSuccessState(_, _, _, _, _, _, _, _) =>
      JObj(if v == 0 then LastSuccessMembers(s)
           else LastSuccessMembers(s)["schemaVersion" := JInt(1)]["fingerprint" := JStr(text(0))])
    case DedupeState(_, _, _, _) =>
      if v == 0
      then JObj(map["entries" := JArr(OldEntriesToJson(s.entries, 0, text)), "maxSize" := JInt(s.maxEntries)])
      else JObj(DedupeMembers(1, OldEntriesToJson(s.entries, 0, text), s.maxEntries, s.ttlMs))
    case ActiveJobState(_, _, _, _, _, _, _, _, _, _, _) =>
      JObj(if v == 0 then ActiveJobMembers(s)
           else ActiveJobMembers(s)["schemaVersion" := JInt(1)]["idempotencyKey" := JStr(s.idempotencyKey)])
  }

  function OldEntryToJson(e: DedupeEntry, fingerprint: ByteString): Json {
    JObj(map[
      "requestId" := JStr(e.requestId),
      "reportId" := JStr(e.reportId),
      "snapshotSeq" := JInt(e.snapshotSeq),
      "fingerprint" := JStr(fingerprint),
      "overallResult" := JStr(e.overallResult),
      "completedAt" := JInt(e.completedAt),
      "expiresAt" := JInt(e.expiresAt)])
  }

  function OldEntriesToJson(es: seq<DedupeEntry>, i: nat, text: nat -> ByteString): seq<Json>
    decreases |es|
  {
    if es == [] then [] else [OldEntryToJson(es[0], text(i))] + OldEntriesToJson(es[1..], i + 1, text)
  }

  /** Version `v` could express the state: what it had no field for is at its default. */
  ghost predicate ExpressibleIn(s: State, v: nat) {
    match s
    case SequenceState(_, _, updatedAt) => v < 1 ==> updatedAt == 0
    case LastSuccessState(_, _, _, _, _, _, fingerprints, _) => v < 2 ==> fingerprints == UNKNOWN_FINGERPRINTS
    case DedupeState(_, entries, _, ttlMs) =>
      && (v < 2 ==> forall e :: e in entries ==> e.fingerprints == UNKNOWN_FINGERPRINTS)
      && (v < 1 ==> ttlMs == 0)
    case ActiveJobState(_, _, _, _, _, _, _, _, _, idempotencyKey, fingerprints) =>
      && (v < 2 ==> fingerprints == UNKNOWN_FINGERPRINTS)
      && (v < 1 ==> idempotencyKey == [])
  }

  lemma OldEntryMigrates(e: DedupeEntry, fingerprint: ByteString)
    requires e.fingerprints == UNKNOWN_FINGERPRINTS
    ensures var erased := EraseKey(OldEntryToJson(e, fingerprint), "fingerprint");
            && erased.Ok?
            && SetIfMissing(erased.value, "fingerprints", FingerprintsToJson(UNKNOWN_FINGERPRINTS)) == Ok(EntryToJson(e))
  {
    var erased := EraseKey(OldEntryToJson(e, fingerprint), "fingerprint").value;
    assert erased.fields["fingerprints" := FingerprintsToJson(UNKNOWN_FINGERPRINTS)] == EntryToJson(e).fields;
  }

  lemma {:induction false} OldEntriesMigrate(es: seq<DedupeEntry>, i: nat, text: nat -> ByteString)
    requires forall e :: e in es ==> e.fingerprints == UNKNOWN_FINGERPRINTS
    ensures MigrateEntries(OldEntriesToJson(es, i, text)) == Ok(EntriesToJson(es))
    decreases |es|
  {
    if es != [] {
      OldEntryMigrates(es[0], text(i));
      OldEntriesMigrate(es[1..], i + 1, text);
    }
  }

  lemma SequenceStepMigrates(s: State, text: nat -> ByteString)
    requires s.SequenceState? && WellFormed(s) && s.updatedAt == 0
    ensures MigrateJson(Sequence, OldJson(s, 0, text), 0) == Ok(ToJson(s))
  {
    assert OldJson(s, 0, text).fields["schemaVersion" := JInt(1)]["updatedAt" := JInt(0)] == ToJson(s).fields;
  }

  lemma LastSuccessMembersAreOld(s: State)
    requires s.LastSuccessState?
    ensures var m := LastSuccessMembers(s);
            "schemaVersion" !in m && "fingerprint" !in m && "fingerprints" !in m
  {
  }

  /** Both steps on any object without the versioned members. */
  lemma LastSuccessMembersMigrate(m: map<string, Json>, fingerprint: ByteString)
    requires "schemaVersion" !in m && "fingerprint" !in m && "fingerprints" !in m
    ensures var m1 := m["schemaVersion" := JInt(1)]["fingerprint" := JStr(fingerprint)];
            && (fingerprint == [] ==> MigrateJson(LastSuccess, JObj(m), 0) == Ok(JObj(m1)))
            && MigrateJson(LastSuccess, JObj(m1), 1) == Ok(JObj(
                 m["fingerprints" := FingerprintsToJson(UNKNOWN_FINGERPRINTS)]["schemaVersion" := JInt(2)]))
  {
    var m1 := m["schemaVersion" := JInt(1)]["fingerprint" := JStr(fingerprint)];
    assert (m1 - {"fingerprint"})["fingerprints" := FingerprintsToJson(UNKNOWN_FINGERPRINTS)]["schemaVersion" := JInt(2)]
        == m["fingerprints" := FingerprintsToJson(UNKNOWN_FINGERPRINTS)]["schemaVersion" := JInt(2)];
  }

  /** The text a step leaves behind; the first step for the last success leaves an empty one. */
  function TextAfter(s: State, v: nat, text: nat -> ByteString): nat -> ByteString {
    if s.LastSuccessState? && v == 0 then NoText else text
  }

  function NoText(i: nat): ByteString {
    []
  }

  lemma LastSuccessStepMigrates(s: State, v: nat, text: nat -> ByteString)
    requires s.LastSuccessState? && WellFormed(s) && v < 2 && s.fingerprints == UNKNOWN_FINGERPRINTS
    ensures MigrateJson(LastSuccess, OldJson(s, v, text), v) == Ok(OldJson(s, v + 1, TextAfter(s, v, text)))
  {
    LastSuccessMembersAreOld(s);
    LastSuccessMembersMigrate(LastSuccessMembers(s), TextAfter(s, v, text)(0));
  }

  lemma DedupeFirstStepMigrates(entries: seq<Json>, maxEntries: U32)
    ensures MigrateJson(Dedupe, JObj(map["entries" := JArr(entries), "maxSize" := JInt(maxEntries)]), 0)
         == Ok(JObj(DedupeMembers(1, entries, maxEntries, 0)))
  {
    var m := map["entries" := JArr(entries), "maxSize" := JInt(maxEntries)];
    assert (m["schemaVersion" := JInt(1)]["maxEntries" := JInt(maxEntries)] - {"maxSize"})["ttlMs" := JInt(0)]
        == DedupeMembers(1, entries, maxEntries, 0);
  }

  lemma DedupeSecondStepMigrates(entries: seq<Json>, migrated: seq<Json>, maxEntries: U32, ttlMs: I64)
    requires MigrateEntries(entries) == Ok(migrated)
    ensures MigrateJson(Dedupe, JObj(DedupeMembers(1, entries, maxEntries, ttlMs)), 1)
         == Ok(JObj(DedupeMembers(2, migrated, maxEntries, ttlMs)))
  {
    assert DedupeMembers(1, entries, maxEntries, ttlMs)["entries" := JArr(migrated)]["schemaVersion" := JInt(2)]
        == DedupeMembers(2, migrated, maxEntries, ttlMs);
  }

  lemma DedupeStepMigrates(s: State, v: nat, text: nat -> ByteString)
    requires s.DedupeState? && WellFormed(s) && v < 2 && ExpressibleIn(s, v)
    ensures MigrateJson(Dedupe, OldJson(s, v, text), v) == Ok(OldJson(s, v + 1, text))
  {
    var entries := OldEntriesToJson(s.entries, 0, text);
    OldEntriesMigrate(s.entries, 0, text);
    DedupeFirstStepMigrates(entries, s.maxEntries);
    DedupeSecondStepMigrates(entries, EntriesToJson(s.entries), s.maxEntries, s.ttlMs);
  }

  lemma ActiveJobMembersAreOld(s: State)
    requires s.ActiveJobState?
    ensures var m := ActiveJobMembers(s);
            "schemaVersion" !in m && "idempotencyKey" !in m && "fingerprints" !in m
  {
  }

  lemma ActiveJobMembersMigrate(m: map<string, Json>, key: ByteString)
    requires "schemaVersion" !in m && "idempotencyKey" !in m && "fingerprints" !in m
    ensures var m1 := m["schemaVersion" := JInt(1)]["idempotencyKey" := JStr(key)];
            && (key == [] ==> MigrateJson(ActiveJob, JObj(m), 0) == Ok(JObj(m1)))
            && MigrateJson(ActiveJob, JObj(m1), 1) == Ok(JObj(
                 m["idempotencyKey" := JStr(key)]["fingerprints" := FingerprintsToJson(UNKNOWN_FINGERPRINTS)]
                  ["schemaVersion" := JInt(2)]))
  {
    var m1 := m["schemaVersion" := JInt(1)]["idempotencyKey" := JStr(key)];
    assert m1["fingerprints" := FingerprintsToJson(UNKNOWN_FINGERPRINTS)]["schemaVersion" := JInt(2)]
        == m["idempotencyKey" := JStr(key)]["fingerprints" := FingerprintsToJson(UNKNOWN_FINGERPRINTS)]
            ["schemaVersion" := JInt(2)];
  }

  lemma ActiveJobStepMigrates(s: State, v: nat, text: nat -> ByteString)
    requires s.ActiveJobState? && WellFormed(s) && v < 2 && ExpressibleIn(s, v)
    ensures MigrateJson(ActiveJob, OldJson(s, v, text), v) == Ok(OldJson(s, v + 1, text))
  {
    ActiveJobMembersAreOld(s);
    ActiveJobMembersMigrate(ActiveJobMembers(s), s.idempotencyKey);
  }

  lemma StepMigrates(s: State, v: nat, text: nat -> ByteString)
    requires WellFormed(s) && v < CurrentVersion(KindOf(s)) && ExpressibleIn(s, v)
    ensures MigrateJson(KindOf(s), OldJson(s, v, text), v) == Ok(OldJson(s, v + 1, TextAfter(s, v, text)))
  {
    match KindOf(s)
    case Sequence => SequenceStepMigrates(s, text);
    case LastSuccess => LastSuccessStepMigrates(s, v, text);
    case Dedupe => DedupeStepMigrates(s, v, text);
    case ActiveJob => ActiveJobStepMigrates(s, v, text);
  }

  lemma {:induction false} ChainMigrates(t: JsonText, s: State, v: nat, text: nat -> ByteString)
    requires Faithful(t) && WellFormed(s) && v <= CurrentVersion(KindOf(s)) && ExpressibleIn(s, v)
    ensures Upgrade(KindOf(s), t, t.dump(OldJson(s, v, text)), v) == Ok(t.dump(ToJson(s)))
    decreases CurrentVersion(KindOf(s)) - v
  {
    if v < CurrentVersion(KindOf(s)) {
      assert t.parse(t.dump(OldJson(s, v, text))) == Some(OldJson(s, v, text));
      StepMigrates(s, v, text);
      ChainMigrates(t, s, v + 1, TextAfter(s, v, text));
    }
  }

  /** A record written by any earlier version, with whatever fingerprint texts, decodes to the
      state it stood for, with unknown fingerprints and the defaults of the fields that version
      lacked. */
  lemma OldFormatsKeepTheirMeaning(t: JsonText, s: State, v: nat, text: nat -> ByteString, now: I64)
    requires Faithful(t) && WellFormed(s) && v <= CurrentVersion(KindOf(s)) && ExpressibleIn(s, v)
    requires |t.dump(OldJson(s, v, text))| < U32_SIZE
    ensures Decode(KindOf(s), t, EncodeEnvelope(v, t.dump(OldJson(s, v, text)), now)) == Ok(s)
  {
    EncodeParsesBack(v, t.dump(OldJson(s, v, text)), now);
    ChainMigrates(t, s, v, text);
    assert t.parse(t.dump(ToJson(s))) == Some(ToJson(s));
    DecodeInParts(KindOf(s), t, EncodeEnvelope(v, t.dump(OldJson(s, v, text)), now), t.dump(ToJson(s)), ToJson(s));
    JsonReadsBack(t, s);
  }

  lemma DecodeInParts(kind: Kind, t: JsonText, b: ByteString, payload: ByteString, j: Json)
    requires ParseHeader(b).Ok? && ParseHeader(b).value.schemaVersion <= CurrentVersion(kind)
    requires var h := ParseHeader(b).value; Upgrade(kind, t, ExtractPayload(b, h), h.schemaVersion) == Ok(payload)
    requires t.parse(payload) == Some(j)
    ensures Decode(kind, t, b) == FromJson(kind, t, j)
  {
  }
}
