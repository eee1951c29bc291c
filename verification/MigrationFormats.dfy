/** The texts the migration reads and writes, apart from the new records. */
module MigrationFormats {
  import opened Wrappers
  import opened Bytes
  import opened Envelope
  import opened Json
  import opened CloudState
  import opened LegacyRecords

  datatype Marker = Marker(schemaVersion: U32, completed: bool, migratedKeyCount: U32, migratedAtMs: I64)

  datatype Formats = Formats(
    records: (OldKey, ByteString) -> Result<seq<Record>>,
    counters: (OldKey, ByteString) -> Result<Record>,
    writeMarker: (Marker, I64) -> ByteString,
    readMarker: ByteString -> Result<Marker>)

  ghost predicate MarkersReadBack(f: Formats) {
    forall m: Marker, now :: m.schemaVersion == 1 ==> f.readMarker(f.writeMarker(m, now)) == Ok(m)
  }

  function MarkerToJson(m: Marker): Json {
    JObj(map["schemaVersion" := JInt(m.schemaVersion), "completed" := JBool(m.completed),
             "migratedKeyCount" := JInt(m.migratedKeyCount), "migratedAtMs" := JInt(m.migratedAtMs)])
  }

  function EncodeMarker(t: JsonText, m: Marker, now: I64): ByteString {
    EncodeEnvelope(m.schemaVersion, t.dump(MarkerToJson(m)), now)
  }

  function MarkerFromJson(j: Json): Result<Marker> {
    var schemaVersion :- U32Or(j, "schemaVersion", 1);
    var completed :- BoolOr(j, "completed", false);
    var migratedKeyCount :- U32Or(j, "migratedKeyCount", 0);
    var migratedAtMs :- I64Or(j, "migratedAtMs", 0);
    Ok(Marker(schemaVersion, completed, migratedKeyCount, migratedAtMs))
  }

  function DecodeMarker(t: JsonText, b: ByteString): Result<Marker> {
    var j :- LegacyJson(t, b);
    MarkerFromJson(j)
  }

  /** A marker is a few dozen characters of JSON. */
  ghost predicate MarkersFit(t: JsonText) {
    Faithful(t) && forall m: Marker :: |t.dump(MarkerToJson(m))| < U32_SIZE
  }

  lemma MarkerJsonReadsBack(m: Marker)
    ensures MarkerFromJson(MarkerToJson(m)) == Ok(m)
  {
    IntsConvertBack(0, m.schemaVersion, m.migratedAtMs);
  }

  lemma MarkerReadsBack(t: JsonText, m: Marker, now: I64)
    requires MarkersFit(t) && m.schemaVersion == 1
    ensures DecodeMarker(t, EncodeMarker(t, m, now)) == Ok(m)
  {
    var payload := t.dump(MarkerToJson(m));
    EncodeParsesBack(1, payload, now);
    assert t.parse(payload) == Some(MarkerToJson(m));
    MarkerJsonReadsBack(m);
  }

  function FormatsOf(t: JsonText): Formats {
    Formats((key, b) => RecordsFrom(t, key, b), (key, b) => CountersFrom(t, key, b),
            (m, now) => EncodeMarker(t, m, now), b => DecodeMarker(t, b))
  }

  /** The formats of this repository read markers back. */
  lemma FormatsReadBack(t: JsonText)
    requires MarkersFit(t)
    ensures MarkersReadBack(FormatsOf(t))
  {
    var f := FormatsOf(t);
    forall m: Marker, now | m.schemaVersion == 1
      ensures f.readMarker(f.writeMarker(m, now)) == Ok(m)
    {
      MarkerReadsBack(t, m, now);
    }
  }
}
