/** What each preimage says, member by member, in the numbers and names of the format. */
module PreimageContents {
  import opened Wrappers
  import opened Bytes
  import opened CanonicalEncoding
  import opened CanonicalEncoderClass
  import opened EcuOrder
  import opened InventoryFingerprint

  // ------------------------------------------------------------------------------- fields

  predicate Text(f: Field, id: nat, text: ByteString) {
    f.id == id && f.state == Present && f.bytes == text
  }

  predicate MaybeText(f: Field, id: nat, text: Option<ByteString>) {
    if text.Some? then Text(f, id, text.value) else f.id == id && f.state == Missing && f.bytes == []
  }

  predicate Number(f: Field, id: nat, n: nat) {
    f.id == id && f.state == Present && |f.bytes| == 4 && BeValue(f.bytes) == n
  }

  predicate Named(domain: ByteString, name: string) {
    |domain| == |name| && forall i :: 0 <= i < |name| ==> domain[i] == name[i] as int
  }

  predicate Baseline(f: Field, id: nat, s: BaselineSource) {
    match s case FACTORY => Number(f, id, 1) case LAST_OTA => Number(f, id, 2) case BASELINE_UNKNOWN => Number(f, id, 3)
  }

  predicate Source(f: Field, id: nat, s: VersionSource) {
    match s case UDS_0x22 => Number(f, id, 1) case SOMEIP_GET_VERSION => Number(f, id, 2)
  }

  predicate Status(f: Field, id: nat, s: EcuStatus) {
    match s
    case OK => Number(f, id, 1)
    case MISSING => Number(f, id, 2)
    case NRC => Number(f, id, 3)
    case TIMEOUT => Number(f, id, 4)
    case UNREACHABLE => Number(f, id, 5)
    case PARSE_ERROR => Number(f, id, 6)
  }

  predicate Collected(f: Field, id: nat, s: CollectionStatus) {
    match s case ALL_OK => Number(f, id, 1) case PARTIAL => Number(f, id, 2) case FAILED => Number(f, id, 3)
  }

  predicate VinKnown(f: Field, id: nat, s: VinSource) {
    match s case PROVISIONED => Number(f, id, 1) case VIN_UNKNOWN => Number(f, id, 2)
  }

  /** A list field holds these records, in order. */
  ghost predicate Listed(f: Field, id: nat, rs: seq<Record>) {
    f.id == id && f.state == Present && f.bytes == EncodeList(EncodeRecords(rs))
  }

  // ------------------------------------------------------------------------------ the records

  predicate EcuNames(r: Record, e: EcuVersionEntry) {
    && r.domain == [] && |r.fields| >= 4
    && Text(r.fields[0], 1, e.ecuId) && MaybeText(r.fields[1], 2, e.partNumber)
    && MaybeText(r.fields[2], 3, e.swVersion) && MaybeText(r.fields[3], 4, e.hwVersion)
  }

  lemma VersionEcuSays(e: EcuVersionEntry)
    ensures var r := VersionEcuRecord(e); EcuNames(r, e) && |r.fields| == 4
  {
  }

  lemma SnapshotEcuSays(e: EcuVersionEntry)
    ensures var r := SnapshotEcuRecord(e);
            && EcuNames(r, e) && |r.fields| == 7
            && Source(r.fields[4], 5, e.source) && Status(r.fields[5], 6, e.status)
            && MaybeText(r.fields[6], 7, e.errorCode)
  {
  }

  lemma AsciiSays(name: string)
    requires IsAscii(name)
    ensures Named(Ascii(name), name)
  {
  }

  predicate VersionHead(fields: seq<Field>, s: VehicleSoftwareSnapshot) {
    && |fields| == 3
    && Baseline(fields[0], 1, s.baselineSource) && MaybeText(fields[1], 2, s.baselineId)
    && Text(fields[2], 3, s.registryVersion)
  }

  /** The version digest covers baseline and registry, and the sorted ECUs in its last field. */
  lemma VersionPreimageSays(s: VehicleSoftwareSnapshot)
    ensures var r := VersionRecord(s);
            && |r.fields| == 4 && VersionHead(r.fields[..3], s)
            && Listed(r.fields[3], 4, VersionEcus(SortedEcus(s.ecuList)))
  {
  }

  /** Each of its ECUs is told by its id, part number and versions. */
  lemma VersionEcusSay(ecus: seq<EcuVersionEntry>, i: nat)
    requires i < |ecus|
    ensures |VersionEcus(ecus)| == |ecus| && EcuNames(VersionEcus(ecus)[i], ecus[i]) && |VersionEcus(ecus)[i].fields| == 4
  {
    VersionEcuSays(ecus[i]);
  }

  predicate SnapshotHeadIs(fields: seq<Field>, s: VehicleSoftwareSnapshot, vinDigest: ByteString) {
    && |fields| == 6
    && Text(fields[0], 1, vinDigest) && VinKnown(fields[1], 2, s.vinSource)
    && Baseline(fields[2], 3, s.baselineSource) && MaybeText(fields[3], 4, s.baselineId)
    && Text(fields[4], 5, s.registryVersion) && Collected(fields[5], 6, s.overallResult)
  }

  lemma SnapshotHeadSays(s: VehicleSoftwareSnapshot, vinDigest: ByteString)
    ensures SnapshotHeadIs(SnapshotHead(s, vinDigest), s, vinDigest)
  {
  }

  lemma HeadAndList(head: seq<Field>, list: Field)
    ensures (head + [list])[..|head|] == head && (head + [list])[|head|] == list
  {
  }

  /** The snapshot digest also covers the VIN, as its own digest, the sources and the results. */
  lemma SnapshotPreimageSays(s: VehicleSoftwareSnapshot, vinDigest: ByteString)
    ensures var r := SnapshotRecord(s, vinDigest);
            && |r.fields| == 7 && SnapshotHeadIs(r.fields[..6], s, vinDigest)
            && Listed(r.fields[6], 7, SnapshotEcus(SortedEcus(s.ecuList)))
  {
    SnapshotHeadSays(s, vinDigest);
    HeadAndList(SnapshotHead(s, vinDigest), ListField(0x0007, EncodeRecords(SnapshotEcus(SortedEcus(s.ecuList)))));
  }

  /** Each of its ECUs is told with its source, status and error as well. */
  lemma SnapshotEcusSay(ecus: seq<EcuVersionEntry>, i: nat)
    requires i < |ecus|
    ensures |SnapshotEcus(ecus)| == |ecus|
    ensures var r := SnapshotEcus(ecus)[i];
            && EcuNames(r, ecus[i]) && |r.fields| == 7
            && Source(r.fields[4], 5, ecus[i].source) && Status(r.fields[5], 6, ecus[i].status)
            && MaybeText(r.fields[6], 7, ecus[i].errorCode)
  {
    SnapshotEcuSays(ecus[i]);
  }

  lemma DedupePreimageSays(destination: ByteString, canonicalization: ByteString, digest: ByteString)
    ensures var r := DedupeRecord(destination, canonicalization, digest);
            && |r.fields| == 3
            && Text(r.fields[0], 1, destination) && Text(r.fields[1], 2, canonicalization) && Text(r.fields[2], 3, digest)
  {
  }

  lemma IdentifierPreimageSays(kind: IdentifierKind, value: ByteString)
    ensures var r := IdentifierRecord(kind, value); |r.fields| == 1 && Text(r.fields[0], 1, value)
  {
  }

  /** The names the five kinds of digest are computed under. */
  lemma VersionDomain(s: VehicleSoftwareSnapshot)
    ensures Named(VersionRecord(s).domain, "cgw-fota-version-v1")
  {
    AsciiSays("cgw-fota-version-v1");
  }

  lemma SnapshotDomain(s: VehicleSoftwareSnapshot, vinDigest: ByteString)
    ensures Named(SnapshotRecord(s, vinDigest).domain, "cgw-fota-snapshot-v1")
  {
    AsciiSays("cgw-fota-snapshot-v1");
  }

  lemma DedupeDomain(destination: ByteString, canonicalization: ByteString, digest: ByteString)
    ensures Named(DedupeRecord(destination, canonicalization, digest).domain, "cgw-fota-dedupe-v1")
  {
    AsciiSays("cgw-fota-dedupe-v1");
  }

  lemma VinDomain(value: ByteString)
    ensures Named(IdentifierRecord(Vin, value).domain, "cgw-fota-id-v1/vin")
  {
    AsciiSays("cgw-fota-id-v1/vin");
  }

  lemma DeviceSnDomain(value: ByteString)
    ensures Named(IdentifierRecord(DeviceSn, value).domain, "cgw-fota-id-v1/device_sn")
  {
    AsciiSays("cgw-fota-id-v1/device_sn");
  }

  // -------------------------------------------------------------------------------- the bytes

  lemma LastByte(v: nat, n: nat)
    requires 0 < n && v < 256
    ensures |BeBytes(v, n)| == n && BeBytes(v, n)[n - 1] == v && forall i :: 0 <= i < n - 1 ==> BeBytes(v, n)[i] == 0
  {
    if n > 1 {
      LastByte(0, n - 1);
    }
  }

  /** A small number in four and in two bytes, the largest place first. */
  lemma SmallNumbers(v: Byte)
    ensures U32Be(v) == [0, 0, 0, v] && U16Be(v) == [0, v]
  {
    LastByte(v, 4);
    LastByte(v, 2);
  }

  lemma FieldsInBytes(id: Byte, b: Byte, missing: Byte)
    ensures EncodeField(Field(id, Present, [b])) == [0, id, 2, 0, 0, 0, 1, b]
    ensures EncodeField(Field(missing, Missing, [])) == [0, missing, 0, 0, 0, 0, 0]
  {
    SmallNumbers(0);
    SmallNumbers(1);
    SmallNumbers(id);
    SmallNumbers(missing);
  }

  lemma TwoFields(first: Field, second: Field)
    ensures EncodeFields([first, second]) == EncodeField(first) + EncodeField(second)
  {
    assert [first, second][1..] == [second] && [second][1..] == [];
    assert EncodeFields([second]) == EncodeField(second) + EncodeFields([]);
  }

  lemma TwoFieldRecord(d: Byte, first: Field, second: Field)
    ensures EncodeRecord(Record([d], [first, second]))
         == [0, 0, 0, 1, d, 0, 0, 0, 2] + EncodeField(first) + EncodeField(second)
  {
    SmallNumbers(1);
    SmallNumbers(2);
    TwoFields(first, second);
  }

  /** A record of two short fields, byte by byte: the domain with its length, the count, and for
      each field its id, its state, its length and its bytes. */
  lemma RecordInBytes(d: Byte, id: Byte, b: Byte, missing: Byte)
    ensures EncodeRecord(Record([d], [Field(id, Present, [b]), Field(missing, Missing, [])]))
         == [0, 0, 0, 1, d, 0, 0, 0, 2] + [0, id, 2, 0, 0, 0, 1, b] + [0, missing, 0, 0, 0, 0, 0]
  {
    FieldsInBytes(id, b, missing);
    TwoFieldRecord(d, Field(id, Present, [b]), Field(missing, Missing, []));
  }

  lemma ListInBytes(a: Byte, b: Byte, c: Byte)
    ensures EncodeList([[a], [b, c]]) == [0, 0, 0, 2, a, b, c]
  {
    SmallNumbers(2);
    var items: seq<ByteString> := [[a], [b, c]];
    assert items[1..] == [[b, c]] && items[1..][1..] == [];
    assert Concat(items[1..]) == [b, c] + Concat([]);
  }
}
