/** What the four digests are computed from. SHA-256 itself is a parameter. */
module InventoryFingerprint {
  import opened Wrappers
  import opened Bytes
  import opened CanonicalEncoding
  import opened CanonicalEncoderClass
  import opened EcuOrder

  datatype IdentifierKind = Vin | DeviceSn

  const VERSION_DOMAIN: string := "cgw-fota-version-v1"
  const SNAPSHOT_DOMAIN: string := "cgw-fota-snapshot-v1"
  const DEDUPE_DOMAIN: string := "cgw-fota-dedupe-v1"
  const VIN_DOMAIN: string := "cgw-fota-id-v1/vin"
  const DEVICE_SN_DOMAIN: string := "cgw-fota-id-v1/device_sn"

  function BaselineSourceCode(s: BaselineSource): U32 {
    match s
    case FACTORY => 1
    case LAST_OTA => 2
    case BASELINE_UNKNOWN => 3
  }

  function VersionSourceCode(s: VersionSource): U32 {
    match s
    case UDS_0x22 => 1
    case SOMEIP_GET_VERSION => 2
  }

  function EcuStatusCode(s: EcuStatus): U32 {
    match s
    case OK => 1
    case MISSING => 2
    case NRC => 3
    case TIMEOUT => 4
    case UNREACHABLE => 5
    case PARSE_ERROR => 6
  }

  function CollectionResultCode(s: CollectionStatus): U32 {
    match s
    case ALL_OK => 1
    case PARTIAL => 2
    case FAILED => 3
  }

  function VinSourceCode(s: VinSource): U32 {
    match s
    case PROVISIONED => 1
    case VIN_UNKNOWN => 2
  }

  // ---------------------------------------------------------------------- records

  function VersionEcuRecord(e: EcuVersionEntry): Record {
    Record([], [
      StringField(0x0001, e.ecuId),
      OptionalField(0x0002, e.partNumber),
      OptionalField(0x0003, e.swVersion),
      OptionalField(0x0004, e.hwVersion)])
  }

  function SnapshotEcuRecord(e: EcuVersionEntry): Record {
    Record([], [
      StringField(0x0001, e.ecuId),
      OptionalField(0x0002, e.partNumber),
      OptionalField(0x0003, e.swVersion),
      OptionalField(0x0004, e.hwVersion),
      EnumField(0x0005, VersionSourceCode(e.source)),
      EnumField(0x0006, EcuStatusCode(e.status)),
      OptionalField(0x0007, e.errorCode)])
  }

  function VersionEcus(ecus: seq<EcuVersionEntry>): seq<Record> {
    seq(|ecus|, i requires 0 <= i < |ecus| => VersionEcuRecord(ecus[i]))
  }

  function SnapshotEcus(ecus: seq<EcuVersionEntry>): seq<Record> {
    seq(|ecus|, i requires 0 <= i < |ecus| => SnapshotEcuRecord(ecus[i]))
  }

  function VersionRecord(s: VehicleSoftwareSnapshot): Record {
    Record(Ascii(VERSION_DOMAIN), [
      EnumField(0x0001, BaselineSourceCode(s.baselineSource)),
      OptionalField(0x0002, s.baselineId),
      StringField(0x0003, s.registryVersion),
      ListField(0x0004, EncodeRecords(VersionEcus(SortedEcus(s.ecuList))))])
  }

  function SnapshotHead(s: VehicleSoftwareSnapshot, vinDigest: ByteString): seq<Field> {
    [ StringField(0x0001, vinDigest),
      EnumField(0x0002, VinSourceCode(s.vinSource)),
      EnumField(0x0003, BaselineSourceCode(s.baselineSource)),
      OptionalField(0x0004, s.baselineId),
      StringField(0x0005, s.registryVersion),
      EnumField(0x0006, CollectionResultCode(s.overallResult))]
  }

  function SnapshotRecord(s: VehicleSoftwareSnapshot, vinDigest: ByteString): Record {
    Record(Ascii(SNAPSHOT_DOMAIN),
      SnapshotHead(s, vinDigest) + [ListField(0x0007, EncodeRecords(SnapshotEcus(SortedEcus(s.ecuList))))])
  }

  function DedupeRecord(destination: ByteString, canonicalization: ByteString, digest: ByteString): Record {
    Record(Ascii(DEDUPE_DOMAIN), [
      StringField(0x0001, destination),
      StringField(0x0002, canonicalization),
      Field(0x0003, Present, digest)])
  }

  function IdentifierDomain(kind: IdentifierKind): ByteString {
    Ascii(if kind.Vin? then VIN_DOMAIN else DEVICE_SN_DOMAIN)
  }

  function IdentifierRecord(kind: IdentifierKind, value: ByteString): Record {
    Record(IdentifierDomain(kind), [StringField(0x0001, value)])
  }

  function UpperByte(c: Byte): Byte {
    if 97 <= c <= 122 then c - 97 + 65 else c
  }

  function UpperVin(vin: ByteString): ByteString {
    seq(|vin|, i requires 0 <= i < |vin| => UpperByte(vin[i]))
  }

  /** `sha256Hex` is any function at all: nothing is assumed of it. */
  function VinDigest(sha256Hex: ByteString -> ByteString, vin: ByteString): ByteString {
    sha256Hex(EncodeRecord(IdentifierRecord(Vin, UpperVin(vin))))
  }

  // ---------------------------------------------------------------------- builders

  method EncodeVersionEcu(e: EcuVersionEntry) returns (bytes: ByteString)
    ensures bytes == EncodeRecord(VersionEcuRecord(e))
  {
    var sub := new CanonicalEncoder([]);
    sub.WriteStringField(0x0001, e.ecuId);
    sub.WriteOptionalStringField(0x0002, e.partNumber);
    sub.WriteOptionalStringField(0x0003, e.swVersion);
    sub.WriteOptionalStringField(0x0004, e.hwVersion);
    assert sub.record == VersionEcuRecord(e);
    bytes := sub.Finalize();
  }

  method EncodeSnapshotEcu(e: EcuVersionEntry) returns (bytes: ByteString)
    ensures bytes == EncodeRecord(SnapshotEcuRecord(e))
  {
    var sub := new CanonicalEncoder([]);
    sub.WriteStringField(0x0001, e.ecuId);
    sub.WriteOptionalStringField(0x0002, e.partNumber);
    sub.WriteOptionalStringField(0x0003, e.swVersion);
    sub.WriteOptionalStringField(0x0004, e.hwVersion);
    sub.WriteEnumField(0x0005, VersionSourceCode(e.source));
    sub.WriteEnumField(0x0006, EcuStatusCode(e.status));
    sub.WriteOptionalStringField(0x0007, e.errorCode);
    SnapshotEcuInParts(e);
    bytes := sub.Finalize();
  }

  lemma SnapshotEcuInParts(e: EcuVersionEntry)
    ensures SnapshotEcuRecord(e).fields
         == [] + [StringField(0x0001, e.ecuId)] + [OptionalField(0x0002, e.partNumber)]
            + [OptionalField(0x0003, e.swVersion)] + [OptionalField(0x0004, e.hwVersion)]
            + [EnumField(0x0005, VersionSourceCode(e.source))] + [EnumField(0x0006, EcuStatusCode(e.status))]
            + [OptionalField(0x0007, e.errorCode)]
  {
  }

  lemma VersionEcusInOrder(ecus: seq<EcuVersionEntry>, order: seq<nat>, bytes: seq<ByteString>)
    requires Indices(ecus, order) && |bytes| == |order|
    requires forall k :: 0 <= k < |order| ==> bytes[k] == EncodeRecord(VersionEcuRecord(ecus[order[k]]))
    ensures bytes == EncodeRecords(VersionEcus(Arrange(ecus, order)))
  {
  }

  method EncodeVersionEcus(ecus: seq<EcuVersionEntry>, order: seq<nat>) returns (ecuBytes: seq<ByteString>)
    requires Indices(ecus, order)
    ensures ecuBytes == EncodeRecords(VersionEcus(Arrange(ecus, order)))
  {
    ecuBytes := [];
    for i := 0 to |order|
      invariant |ecuBytes| == i
      invariant forall k :: 0 <= k < i ==> ecuBytes[k] == EncodeRecord(VersionEcuRecord(ecus[order[k]]))
    {
      var bytes := EncodeVersionEcu(ecus[order[i]]);
      ecuBytes := ecuBytes + [bytes];
    }
    VersionEcusInOrder(ecus, order, ecuBytes);
  }

  lemma SnapshotEcusInOrder(ecus: seq<EcuVersionEntry>, order: seq<nat>, bytes: seq<ByteString>)
    requires Indices(ecus, order) && |bytes| == |order|
    requires forall k :: 0 <= k < |order| ==> bytes[k] == EncodeRecord(SnapshotEcuRecord(ecus[order[k]]))
    ensures bytes == EncodeRecords(SnapshotEcus(Arrange(ecus, order)))
  {
  }

  method EncodeSnapshotEcus(ecus: seq<EcuVersionEntry>, order: seq<nat>) returns (ecuBytes: seq<ByteString>)
    requires Indices(ecus, order)
    ensures ecuBytes == EncodeRecords(SnapshotEcus(Arrange(ecus, order)))
  {
    ecuBytes := [];
    for i := 0 to |order|
      invariant |ecuBytes| == i
      invariant forall k :: 0 <= k < i ==> ecuBytes[k] == EncodeRecord(SnapshotEcuRecord(ecus[order[k]]))
    {
      var bytes := EncodeSnapshotEcu(ecus[order[i]]);
      ecuBytes := ecuBytes + [bytes];
    }
    SnapshotEcusInOrder(ecus, order, ecuBytes);
  }

  /** The bytes hashed into the version fingerprint. */
  method BuildVersionPreimage(s: VehicleSoftwareSnapshot) returns (r: Result<ByteString>)
    ensures r.Err? <==> HasDuplicateKeys(s.ecuList)
    ensures r.Ok? ==> r.value == EncodeRecord(VersionRecord(s))
  {
    var enc := new CanonicalEncoder(Ascii(VERSION_DOMAIN));
    enc.WriteEnumField(0x0001, BaselineSourceCode(s.baselineSource));
    enc.WriteOptionalStringField(0x0002, s.baselineId);
    enc.WriteStringField(0x0003, s.registryVersion);
    var sorted := SortEcuIndices(s.ecuList);
    if sorted.Err? {
      return Err(sorted.error);
    }
    var ecuBytes := EncodeVersionEcus(s.ecuList, sorted.value);
    enc.WriteListField(0x0004, ecuBytes);
    FourFields(EnumField(0x0001, BaselineSourceCode(s.baselineSource)), OptionalField(0x0002, s.baselineId),
               StringField(0x0003, s.registryVersion), ListField(0x0004, ecuBytes));
    var bytes := enc.Finalize();
    r := Ok(bytes);
  }

  lemma FourFields(a: Field, b: Field, c: Field, d: Field)
    ensures [a, b, c, d] == [] + [a] + [b] + [c] + [d]
  {
  }

  /** The bytes hashed into the snapshot fingerprint: the VIN enters as a digest only. */
  method BuildSnapshotPreimage(s: VehicleSoftwareSnapshot, sha256Hex: ByteString -> ByteString)
    returns (r: Result<ByteString>)
    ensures r.Err? <==> HasDuplicateKeys(s.ecuList)
    ensures r.Ok? ==> r.value == EncodeRecord(SnapshotRecord(s, VinDigest(sha256Hex, s.vin)))
  {
    var vin := NormalizeVin(s.vin);
    var idBytes := BuildIdentifierPreimage(Vin, vin);
    var enc := BeginSnapshot(s, sha256Hex(idBytes));
    var sorted := SortEcuIndices(s.ecuList);
    if sorted.Err? {
      return Err(sorted.error);
    }
    var ecuBytes := EncodeSnapshotEcus(s.ecuList, sorted.value);
    enc.WriteListField(0x0007, ecuBytes);
    var bytes := enc.Finalize();
    r := Ok(bytes);
  }

  method BeginSnapshot(s: VehicleSoftwareSnapshot, vinDigest: ByteString) returns (enc: CanonicalEncoder)
    ensures fresh(enc) && enc.Valid()
    ensures enc.record == Record(Ascii(SNAPSHOT_DOMAIN), SnapshotHead(s, vinDigest))
  {
    enc := new CanonicalEncoder(Ascii(SNAPSHOT_DOMAIN));
    enc.WriteStringField(0x0001, vinDigest);
    enc.WriteEnumField(0x0002, VinSourceCode(s.vinSource));
    enc.WriteEnumField(0x0003, BaselineSourceCode(s.baselineSource));
    enc.WriteOptionalStringField(0x0004, s.baselineId);
    enc.WriteStringField(0x0005, s.registryVersion);
    enc.WriteEnumField(0x0006, CollectionResultCode(s.overallResult));
    HeadInParts(s, vinDigest);
  }

  /** The head written field by field. */
  lemma HeadInParts(s: VehicleSoftwareSnapshot, vinDigest: ByteString)
    ensures SnapshotHead(s, vinDigest)
         == [] + [StringField(0x0001, vinDigest)] + [EnumField(0x0002, VinSourceCode(s.vinSource))]
            + [EnumField(0x0003, BaselineSourceCode(s.baselineSource))] + [OptionalField(0x0004, s.baselineId)]
            + [StringField(0x0005, s.registryVersion)] + [EnumField(0x0006, CollectionResultCode(s.overallResult))]
  {
  }

  method BuildDedupePreimage(destination: ByteString, canonicalization: ByteString, digest: ByteString)
    returns (bytes: ByteString)
    ensures bytes == EncodeRecord(DedupeRecord(destination, canonicalization, digest))
  {
    var enc := new CanonicalEncoder(Ascii(DEDUPE_DOMAIN));
    enc.WriteStringField(0x0001, destination);
    enc.WriteStringField(0x0002, canonicalization);
    enc.WriteField(0x0003, Present, digest);
    assert enc.record == DedupeRecord(destination, canonicalization, digest);
    bytes := enc.Finalize();
  }

  method BuildIdentifierPreimage(kind: IdentifierKind, value: ByteString) returns (bytes: ByteString)
    ensures bytes == EncodeRecord(IdentifierRecord(kind, value))
  {
    var enc := new CanonicalEncoder(IdentifierDomain(kind));
    enc.WriteStringField(0x0001, value);
    assert enc.record == IdentifierRecord(kind, value);
    bytes := enc.Finalize();
  }

  /** Upper-cases a-z in place and nothing else. */
  method NormalizeVin(vin: ByteString) returns (out: ByteString)
    ensures out == UpperVin(vin)
  {
    out := vin;
    for i := 0 to |vin|
      invariant |out| == |vin|
      invariant forall k :: 0 <= k < |vin| ==> out[k] == if k < i then UpperByte(vin[k]) else vin[k]
    {
      if 97 <= out[i] <= 122 {
        out := out[i := out[i] - 97 + 65];
      }
    }
  }

  // -------------------------------------------------------- fields determine values

  lemma OptionalFieldsDiffer(id: U16, a: Option<ByteString>, b: Option<ByteString>)
    ensures OptionalField(id, a) == OptionalField(id, b) <==> a == b
  {
  }

  lemma EnumFieldsDiffer(id: U16, a: U32, b: U32)
    ensures EnumField(id, a) == EnumField(id, b) <==> a == b
  {
    assert BeValue(EnumField(id, a).bytes) == a && BeValue(EnumField(id, b).bytes) == b;
  }

  /** The part of an entry that a version fingerprint covers. */
  function VersionView(e: EcuVersionEntry): EcuVersionEntry {
    e.(source := UDS_0x22, status := OK, errorCode := None)
  }

  lemma VersionEcuRecordsDiffer(a: EcuVersionEntry, b: EcuVersionEntry)
    ensures VersionEcuRecord(a) == VersionEcuRecord(b) <==> VersionView(a) == VersionView(b)
  {
    var x, y := VersionEcuRecord(a), VersionEcuRecord(b);
    if x == y {
      assert forall i :: 0 <= i < 4 ==> x.fields[i] == y.fields[i];
      assert x.fields[0].bytes == a.ecuId && y.fields[0].bytes == b.ecuId;
      OptionalFieldsDiffer(0x0002, a.partNumber, b.partNumber);
      OptionalFieldsDiffer(0x0003, a.swVersion, b.swVersion);
      OptionalFieldsDiffer(0x0004, a.hwVersion, b.hwVersion);
    }
  }

  lemma SnapshotEcuRecordsDiffer(a: EcuVersionEntry, b: EcuVersionEntry)
    ensures SnapshotEcuRecord(a) == SnapshotEcuRecord(b) <==> a == b
  {
    var x, y := SnapshotEcuRecord(a), SnapshotEcuRecord(b);
    if x == y {
      assert forall i :: 0 <= i < 7 ==> x.fields[i] == y.fields[i];
      assert x.fields[0].bytes == a.ecuId && y.fields[0].bytes == b.ecuId;
      OptionalFieldsDiffer(0x0002, a.partNumber, b.partNumber);
      OptionalFieldsDiffer(0x0003, a.swVersion, b.swVersion);
      OptionalFieldsDiffer(0x0004, a.hwVersion, b.hwVersion);
      EnumFieldsDiffer(0x0005, VersionSourceCode(a.source), VersionSourceCode(b.source));
      EnumFieldsDiffer(0x0006, EcuStatusCode(a.status), EcuStatusCode(b.status));
      OptionalFieldsDiffer(0x0007, a.errorCode, b.errorCode);
    }
  }

  ghost predicate AllFit(rs: seq<Record>) {
    forall i :: 0 <= i < |rs| ==> rs[i].Fits()
  }

  /** Equal list payloads are equal lists of records. */
  lemma ListFieldsDiffer(id: U16, a: seq<Record>, b: seq<Record>)
    requires |a| < U32_SIZE && |b| < U32_SIZE
    requires AllFit(a) && AllFit(b)
    ensures ListField(id, EncodeRecords(a)) == ListField(id, EncodeRecords(b)) <==> a == b
  {
    ParseListReads(a);
    ParseListReads(b);
  }

  // ------------------------------------------------------------ version fingerprint

  /** Every length of the version preimage fits u32. */
  ghost predicate VersionFits(s: VehicleSoftwareSnapshot) {
    && VersionRecord(s).Fits()
    && |s.ecuList| < U32_SIZE
    && forall e :: e in s.ecuList ==> VersionEcuRecord(e).Fits()
  }

  /** What the version preimage is a function of, up to the order of the ECUs. */
  ghost predicate SameVersions(s: VehicleSoftwareSnapshot, t: VehicleSoftwareSnapshot) {
    && s.baselineSource == t.baselineSource
    && s.baselineId == t.baselineId
    && s.registryVersion == t.registryVersion
    && ViewSet(s.ecuList) == ViewSet(t.ecuList)
  }

  /** The covered parts of all entries, without their order. */
  function ViewSet(ecus: seq<EcuVersionEntry>): set<EcuVersionEntry> {
    set e | e in ecus :: VersionView(e)
  }

  function EntrySet(ecus: seq<EcuVersionEntry>): set<EcuVersionEntry> {
    set e | e in ecus
  }

  function Views(ecus: seq<EcuVersionEntry>): seq<EcuVersionEntry> {
    seq(|ecus|, i requires 0 <= i < |ecus| => VersionView(ecus[i]))
  }

  lemma VersionEcusDiffer(a: seq<EcuVersionEntry>, b: seq<EcuVersionEntry>)
    ensures VersionEcus(a) == VersionEcus(b) <==> Views(a) == Views(b)
  {
    var x, y := VersionEcus(a), VersionEcus(b);
    if |a| == |b| {
      forall i | 0 <= i < |a| ensures x[i] == y[i] <==> Views(a)[i] == Views(b)[i] {
        VersionEcuRecordsDiffer(a[i], b[i]);
      }
      if x == y {
        assert forall i :: 0 <= i < |a| ==> Views(a)[i] == Views(b)[i];
      }
      if Views(a) == Views(b) {
        assert forall i :: 0 <= i < |a| ==> x[i] == y[i];
      }
    } else {
      assert |x| != |y| && |Views(a)| != |Views(b)|;
    }
  }

  /** The canonical listings agree exactly when the sets of views do. */
  lemma SortedViewsDiffer(a: seq<EcuVersionEntry>, b: seq<EcuVersionEntry>)
    requires !HasDuplicateKeys(a) && !HasDuplicateKeys(b)
    ensures Views(SortedEcus(a)) == Views(SortedEcus(b))
       <==> ViewSet(a) == ViewSet(b)
  {
    ViewsHoldTheSet(a);
    ViewsHoldTheSet(b);
    var x, y := Views(SortedEcus(a)), Views(SortedEcus(b));
    if x == y {
      assert forall v :: v in ViewSet(a) <==> v in ViewSet(b);
      assert ViewSet(a) == ViewSet(b);
    } else if ViewSet(a) == ViewSet(b) {
      NoDuplicatesIncrease(a);
      NoDuplicatesIncrease(b);
      ViewsIncrease(SortedEcus(a));
      ViewsIncrease(SortedEcus(b));
      IncreasingListingIsUnique(x, y);
    }
  }

  lemma ViewsHoldTheSet(a: seq<EcuVersionEntry>)
    ensures forall v :: v in Views(SortedEcus(a)) <==> v in ViewSet(a)
  {
    SortedKeepsEntries(a);
    var sorted := SortedEcus(a);
    forall v | v in ViewSet(a) ensures v in Views(sorted) {
      var e :| e in a && VersionView(e) == v;
      var i :| 0 <= i < |sorted| && sorted[i] == e;
      assert Views(sorted)[i] == v;
    }
    forall v | v in Views(sorted) ensures v in ViewSet(a) {
      var i :| 0 <= i < |sorted| && Views(sorted)[i] == v;
      assert sorted[i] in sorted;
      assert VersionView(sorted[i]) == v;
    }
  }

  lemma ViewsIncrease(a: seq<EcuVersionEntry>)
    requires StrictlyIncreasing(a)
    ensures StrictlyIncreasing(Views(a))
  {
    forall p, q | 0 <= p < q < |a| ensures KeyLess(KeyOf(Views(a)[p]), KeyOf(Views(a)[q])) {
      assert KeyLess(KeyOf(a[p]), KeyOf(a[q]));
    }
  }

  lemma VersionListFits(s: VehicleSoftwareSnapshot)
    requires VersionFits(s)
    ensures var rs := VersionEcus(SortedEcus(s.ecuList));
            |rs| < U32_SIZE && AllFit(rs)
  {
    var sorted := SortedEcus(s.ecuList);
    var rs := VersionEcus(sorted);
    SortedKeepsEntries(s.ecuList);
    forall i | 0 <= i < |rs| ensures rs[i].Fits() {
      assert sorted[i] in sorted;
    }
  }

  /** Two version preimages are the same bytes exactly when baseline, registry version
      and the set of (ecu, part, sw, hw) agree, a missing value differing from an empty one. */
  lemma VersionPreimageIsInjective(s: VehicleSoftwareSnapshot, t: VehicleSoftwareSnapshot)
    requires !HasDuplicateKeys(s.ecuList) && !HasDuplicateKeys(t.ecuList)
    requires VersionFits(s) && VersionFits(t)
    ensures EncodeRecord(VersionRecord(s)) == EncodeRecord(VersionRecord(t)) <==> SameVersions(s, t)
  {
    EncodingIsInjective(VersionRecord(s), VersionRecord(t));
    VersionRecordsDiffer(s, t);
    SortedViewsDiffer(s.ecuList, t.ecuList);
  }

  lemma VersionRecordsDiffer(s: VehicleSoftwareSnapshot, t: VehicleSoftwareSnapshot)
    requires VersionFits(s) && VersionFits(t)
    ensures VersionRecord(s) == VersionRecord(t) <==>
            && s.baselineSource == t.baselineSource
            && s.baselineId == t.baselineId
            && s.registryVersion == t.registryVersion
            && Views(SortedEcus(s.ecuList)) == Views(SortedEcus(t.ecuList))
  {
    var x, y := VersionRecord(s).fields, VersionRecord(t).fields;
    EnumFieldsDiffer(0x0001, BaselineSourceCode(s.baselineSource), BaselineSourceCode(t.baselineSource));
    OptionalFieldsDiffer(0x0002, s.baselineId, t.baselineId);
    VersionListFits(s);
    VersionListFits(t);
    ListFieldsDiffer(0x0004, VersionEcus(SortedEcus(s.ecuList)), VersionEcus(SortedEcus(t.ecuList)));
    VersionEcusDiffer(SortedEcus(s.ecuList), SortedEcus(t.ecuList));
    assert x == y <==> x[0] == y[0] && x[1] == y[1] && x[2] == y[2] && x[3] == y[3];
  }

  /** Throw-or-bytes does not depend on the order in which the ECUs were collected. */
  lemma VersionPreimageIgnoresOrder(s: VehicleSoftwareSnapshot, shuffle: seq<nat>)
    requires IsPermutation(shuffle, |s.ecuList|)
    ensures Indices(s.ecuList, shuffle)
    ensures var t := s.(ecuList := Arrange(s.ecuList, shuffle));
            && (HasDuplicateKeys(t.ecuList) <==> HasDuplicateKeys(s.ecuList))
            && (!HasDuplicateKeys(s.ecuList) ==> EncodeRecord(VersionRecord(t)) == EncodeRecord(VersionRecord(s)))
  {
    OrderIsPermutationInvariant(s.ecuList, shuffle);
  }

  // ----------------------------------------------------------- snapshot fingerprint

  ghost predicate SnapshotFits(s: VehicleSoftwareSnapshot, vinDigest: ByteString) {
    && SnapshotRecord(s, vinDigest).Fits()
    && |s.ecuList| < U32_SIZE
    && forall e :: e in s.ecuList ==> SnapshotEcuRecord(e).Fits()
  }

  ghost predicate SameSnapshots(s: VehicleSoftwareSnapshot, t: VehicleSoftwareSnapshot) {
    && s.vinSource == t.vinSource
    && s.baselineSource == t.baselineSource
    && s.baselineId == t.baselineId
    && s.registryVersion == t.registryVersion
    && s.overallResult == t.overallResult
    && EntrySet(s.ecuList) == EntrySet(t.ecuList)
  }

  lemma SnapshotEcusDiffer(a: seq<EcuVersionEntry>, b: seq<EcuVersionEntry>)
    ensures SnapshotEcus(a) == SnapshotEcus(b) <==> a == b
  {
    var x, y := SnapshotEcus(a), SnapshotEcus(b);
    if x == y {
      assert |x| == |a| && |y| == |b|;
      forall i | 0 <= i < |a| ensures a[i] == b[i] {
        assert x[i] == y[i];
        SnapshotEcuRecordsDiffer(a[i], b[i]);
      }
    }
  }

  lemma SnapshotListFits(s: VehicleSoftwareSnapshot, vinDigest: ByteString)
    requires SnapshotFits(s, vinDigest)
    ensures var rs := SnapshotEcus(SortedEcus(s.ecuList));
            |rs| < U32_SIZE && AllFit(rs)
  {
    var sorted := SortedEcus(s.ecuList);
    var rs := SnapshotEcus(sorted);
    SortedKeepsEntries(s.ecuList);
    forall i | 0 <= i < |rs| ensures rs[i].Fits() {
      assert sorted[i] in sorted;
    }
  }

  lemma SnapshotRecordsDiffer(s: VehicleSoftwareSnapshot, d: ByteString, t: VehicleSoftwareSnapshot, e: ByteString)
    requires SnapshotFits(s, d) && SnapshotFits(t, e)
    ensures SnapshotRecord(s, d) == SnapshotRecord(t, e) <==>
            && d == e
            && s.vinSource == t.vinSource
            && s.baselineSource == t.baselineSource
            && s.baselineId == t.baselineId
            && s.registryVersion == t.registryVersion
            && s.overallResult == t.overallResult
            && SortedEcus(s.ecuList) == SortedEcus(t.ecuList)
  {
    SnapshotHeadsDiffer(s, d, t, e);
    SnapshotListFits(s, d);
    SnapshotListFits(t, e);
    var v, w := SnapshotEcus(SortedEcus(s.ecuList)), SnapshotEcus(SortedEcus(t.ecuList));
    ListFieldsDiffer(0x0007, v, w);
    SnapshotEcusDiffer(SortedEcus(s.ecuList), SortedEcus(t.ecuList));
    AppendsDiffer(SnapshotHead(s, d), ListField(0x0007, EncodeRecords(v)),
                  SnapshotHead(t, e), ListField(0x0007, EncodeRecords(w)));
  }

  lemma AppendsDiffer(x: seq<Field>, f: Field, y: seq<Field>, g: Field)
    ensures x + [f] == y + [g] <==> x == y && f == g
  {
    if x + [f] == y + [g] {
      assert x == (x + [f])[..|x|] && y == (y + [g])[..|y|];
      assert (x + [f])[|x|] == f && (y + [g])[|y|] == g;
    }
  }

  lemma SnapshotHeadsDiffer(s: VehicleSoftwareSnapshot, d: ByteString, t: VehicleSoftwareSnapshot, e: ByteString)
    ensures SnapshotHead(s, d) == SnapshotHead(t, e) <==>
            && d == e
            && s.vinSource == t.vinSource
            && s.baselineSource == t.baselineSource
            && s.baselineId == t.baselineId
            && s.registryVersion == t.registryVersion
            && s.overallResult == t.overallResult
  {
    var x, y := SnapshotHead(s, d), SnapshotHead(t, e);
    EnumFieldsDiffer(0x0002, VinSourceCode(s.vinSource), VinSourceCode(t.vinSource));
    EnumFieldsDiffer(0x0003, BaselineSourceCode(s.baselineSource), BaselineSourceCode(t.baselineSource));
    OptionalFieldsDiffer(0x0004, s.baselineId, t.baselineId);
    EnumFieldsDiffer(0x0006, CollectionResultCode(s.overallResult), CollectionResultCode(t.overallResult));
    assert x == y <==> x[0] == y[0] && x[1] == y[1] && x[2] == y[2] && x[3] == y[3] && x[4] == y[4] && x[5] == y[5];
  }

  lemma SnapshotPreimageIgnoresOrder(s: VehicleSoftwareSnapshot, shuffle: seq<nat>, vinDigest: ByteString)
    requires IsPermutation(shuffle, |s.ecuList|)
    ensures Indices(s.ecuList, shuffle)
    ensures var t := s.(ecuList := Arrange(s.ecuList, shuffle));
            && (HasDuplicateKeys(t.ecuList) <==> HasDuplicateKeys(s.ecuList))
            && (!HasDuplicateKeys(s.ecuList) ==>
                  EncodeRecord(SnapshotRecord(t, vinDigest)) == EncodeRecord(SnapshotRecord(s, vinDigest)))
  {
    OrderIsPermutationInvariant(s.ecuList, shuffle);
  }

  /** Snapshot preimages are the same bytes exactly when every covered value agrees:
      also result, sources, statuses, error codes and the digest of the VIN. */
  lemma SnapshotPreimageIsInjective(s: VehicleSoftwareSnapshot, t: VehicleSoftwareSnapshot,
                                    sha256Hex: ByteString -> ByteString)
    requires !HasDuplicateKeys(s.ecuList) && !HasDuplicateKeys(t.ecuList)
    requires SnapshotFits(s, VinDigest(sha256Hex, s.vin)) && SnapshotFits(t, VinDigest(sha256Hex, t.vin))
    ensures EncodeRecord(SnapshotRecord(s, VinDigest(sha256Hex, s.vin)))
         == EncodeRecord(SnapshotRecord(t, VinDigest(sha256Hex, t.vin)))
       <==> SameSnapshots(s, t) && VinDigest(sha256Hex, s.vin) == VinDigest(sha256Hex, t.vin)
  {
    var d, e := VinDigest(sha256Hex, s.vin), VinDigest(sha256Hex, t.vin);
    EncodingIsInjective(SnapshotRecord(s, d), SnapshotRecord(t, e));
    SnapshotRecordsDiffer(s, d, t, e);
    SortedListingsDiffer(s.ecuList, t.ecuList);
  }

  lemma SetsAreMembers(a: seq<EcuVersionEntry>)
    ensures forall e :: e in SortedEcus(a) <==> e in EntrySet(a)
  {
    SortedKeepsEntries(a);
  }

  lemma SortedListingsDiffer(a: seq<EcuVersionEntry>, b: seq<EcuVersionEntry>)
    requires !HasDuplicateKeys(a) && !HasDuplicateKeys(b)
    ensures SortedEcus(a) == SortedEcus(b) <==> EntrySet(a) == EntrySet(b)
  {
    SetsAreMembers(a);
    SetsAreMembers(b);
    if SortedEcus(a) == SortedEcus(b) {
      assert EntrySet(a) == EntrySet(b);
    } else if EntrySet(a) == EntrySet(b) {
      NoDuplicatesIncrease(a);
      NoDuplicatesIncrease(b);
      IncreasingListingIsUnique(SortedEcus(a), SortedEcus(b));
    }
  }

  // ----------------------------------------------------- dedupe keys and identifiers

  lemma DedupePreimageIsInjective(d1: ByteString, c1: ByteString, h1: ByteString,
                                  d2: ByteString, c2: ByteString, h2: ByteString)
    requires DedupeRecord(d1, c1, h1).Fits() && DedupeRecord(d2, c2, h2).Fits()
    ensures EncodeRecord(DedupeRecord(d1, c1, h1)) == EncodeRecord(DedupeRecord(d2, c2, h2))
       <==> d1 == d2 && c1 == c2 && h1 == h2
  {
    EncodingIsInjective(DedupeRecord(d1, c1, h1), DedupeRecord(d2, c2, h2));
    var x, y := DedupeRecord(d1, c1, h1).fields, DedupeRecord(d2, c2, h2).fields;
    assert x == y <==> x[0] == y[0] && x[1] == y[1] && x[2] == y[2];
  }

  lemma IdentifierPreimageIsInjective(k1: IdentifierKind, v1: ByteString, k2: IdentifierKind, v2: ByteString)
    requires IdentifierRecord(k1, v1).Fits() && IdentifierRecord(k2, v2).Fits()
    ensures EncodeRecord(IdentifierRecord(k1, v1)) == EncodeRecord(IdentifierRecord(k2, v2))
       <==> k1 == k2 && v1 == v2
  {
    EncodingIsInjective(IdentifierRecord(k1, v1), IdentifierRecord(k2, v2));
    var x, y := IdentifierRecord(k1, v1), IdentifierRecord(k2, v2);
    assert |IdentifierDomain(Vin)| != |IdentifierDomain(DeviceSn)|;
    assert x.fields == y.fields <==> x.fields[0] == y.fields[0];
  }

  /** VINs share an identifier preimage exactly when they differ in ASCII letter case at most. */
  lemma VinPreimageIgnoresCaseOnly(v: ByteString, w: ByteString)
    requires |v| < U32_SIZE && |w| < U32_SIZE
    ensures EncodeRecord(IdentifierRecord(Vin, UpperVin(v))) == EncodeRecord(IdentifierRecord(Vin, UpperVin(w)))
       <==> |v| == |w| && forall i :: 0 <= i < |v| ==> UpperByte(v[i]) == UpperByte(w[i])
  {
    IdentifierPreimageIsInjective(Vin, UpperVin(v), Vin, UpperVin(w));
    if UpperVin(v) == UpperVin(w) {
      forall i | 0 <= i < |v| ensures UpperByte(v[i]) == UpperByte(w[i]) {
        assert UpperVin(v)[i] == UpperVin(w)[i];
      }
    }
  }

  /** The digests never share a preimage across kinds. */
  lemma PreimagesAreDomainSeparated(s: VehicleSoftwareSnapshot, t: VehicleSoftwareSnapshot, vinDigest: ByteString,
                                    dst: ByteString, canon: ByteString, digest: ByteString,
                                    kind: IdentifierKind, value: ByteString)
    requires VersionRecord(s).Fits() && SnapshotRecord(t, vinDigest).Fits()
    requires DedupeRecord(dst, canon, digest).Fits() && IdentifierRecord(kind, value).Fits()
    ensures var v, n := EncodeRecord(VersionRecord(s)), EncodeRecord(SnapshotRecord(t, vinDigest));
            var d, i := EncodeRecord(DedupeRecord(dst, canon, digest)), EncodeRecord(IdentifierRecord(kind, value));
            v != n && v != d && v != i && n != d && n != i && d != i
  {
    var v, n := VersionRecord(s), SnapshotRecord(t, vinDigest);
    var d, i := DedupeRecord(dst, canon, digest), IdentifierRecord(kind, value);
    DomainStringsDiffer();
    DomainsAreSeparated(v, n);
    DomainsAreSeparated(v, d);
    DomainsAreSeparated(v, i);
    DomainsAreSeparated(n, d);
    DomainsAreSeparated(n, i);
    DomainsAreSeparated(d, i);
  }

  lemma DomainStringsDiffer()
    ensures var v, n, d := Ascii(VERSION_DOMAIN), Ascii(SNAPSHOT_DOMAIN), Ascii(DEDUPE_DOMAIN);
            v != n && v != d && n != d && forall k :: IdentifierDomain(k) !in {v, n, d}
  {
    var v, n, d := Ascii(VERSION_DOMAIN), Ascii(SNAPSHOT_DOMAIN), Ascii(DEDUPE_DOMAIN);
    assert |v| == 19 && |n| == 20 && |d| == 18;
    assert |IdentifierDomain(Vin)| == 18 && |IdentifierDomain(DeviceSn)| == 24;
    assert d[9] == 'd' as int && IdentifierDomain(Vin)[9] == 'i' as int;
  }
}
