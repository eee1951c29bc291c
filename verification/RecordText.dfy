/** The envelope with its time stamp blanked: what two writes of one record agree on. */
module RecordText {
  import opened Wrappers
  import opened Bytes
  import opened Envelope
  import opened CloudState

  /** How records are printed and read back; the JSON of each record type is not modelled. */
  datatype RecordCodec = RecordCodec(
    write: (Record, I64) -> ByteString,
    read: (RecordKind, ByteString) -> Result<Record>,
    core: ByteString -> ByteString,   // the text without the time it was written
    fits: Record -> bool)             // short enough for the length field of the envelope

  ghost predicate Lawful(c: RecordCodec) {
    && (forall r, now :: c.fits(r) ==> c.read(KindOf(SlotOf(r)), c.write(r, now)) == Ok(r))
    && (forall r, t1, t2 :: c.core(c.write(r, t1)) == c.core(c.write(r, t2)))
    && (forall k, a, b :: c.core(a) == c.core(b) ==> c.read(k, a) == c.read(k, b))
    && (forall k, b :: c.read(k, b).Ok? ==> KindOf(SlotOf(c.read(k, b).value)) == k)
  }

  const RECORD_VERSION: U32 := 1

  /** Zero in place of the eight bytes of the time stamp. */
  function Blank(b: ByteString): (blank: ByteString)
    ensures |blank| == |b|
  {
    if |b| < HEADER_SIZE then b else b[..16] + [0, 0, 0, 0, 0, 0, 0, 0] + b[24..]
  }

  function ReadEnveloped(parse: (RecordKind, ByteString) -> Result<Record>, k: RecordKind, b: ByteString): Result<Record> {
    var h :- ParseHeader(b);
    if h.schemaVersion > RECORD_VERSION then Err("unknown newer schemaVersion")
    else if h.schemaVersion < RECORD_VERSION then Err("unsupported older schemaVersion")
    else parse(k, ExtractPayload(b, h))
  }

  function Enveloped(payload: Record -> ByteString, parse: (RecordKind, ByteString) -> Result<Record>): RecordCodec {
    RecordCodec((r, now) => EncodeEnvelope(RECORD_VERSION, payload(r), now),
          (k, b) => ReadEnveloped(parse, k, b), b => Blank(b), r => |payload(r)| < U32_SIZE)
  }

  lemma BlankForgetsTime(payload: ByteString, t1: I64, t2: I64)
    ensures Blank(EncodeEnvelope(RECORD_VERSION, payload, t1)) == Blank(EncodeEnvelope(RECORD_VERSION, payload, t2))
  {
    var n := ToU32(|payload|);
    var front := MAGIC + U32Le(RECORD_VERSION) + U32Le(WRITER_VERSION) + U32Le(MIN_READER_VERSION);
    Layout(front, I64Le(t1), U32Le(n), payload);
    Layout(front, I64Le(t2), U32Le(n), payload);
  }

  lemma Layout(front: ByteString, time: ByteString, len: ByteString, payload: ByteString)
    requires |front| == 16 && |time| == 8 && |len| == 4
    ensures Blank(front + time + len + payload) == front + [0, 0, 0, 0, 0, 0, 0, 0] + (len + payload)
  {
    var b := front + time + len + payload;
    assert b[..16] == front && b[24..] == len + payload;
  }

  lemma BlankDecidesReading(a: ByteString, b: ByteString)
    requires Blank(a) == Blank(b)
    ensures |a| == |b|
    ensures |a| >= HEADER_SIZE ==>
              a[..4] == b[..4] && a[4..8] == b[4..8] && a[8..12] == b[8..12] && a[12..16] == b[12..16] && a[24..] == b[24..]
  {
    assert |a| == |b|;
    if |a| >= HEADER_SIZE {
      assert Blank(a)[..16] == a[..16] && Blank(b)[..16] == b[..16];
      assert Blank(a)[24..] == a[24..] && Blank(b)[24..] == b[24..];
      Inside(a, b);
    }
  }

  lemma Inside(a: ByteString, b: ByteString)
    requires |a| >= 16 && |b| >= 16 && a[..16] == b[..16]
    ensures a[..4] == b[..4] && a[4..8] == b[4..8] && a[8..12] == b[8..12] && a[12..16] == b[12..16]
  {
    assert a[..4] == a[..16][..4] && a[4..8] == a[..16][4..8] && a[8..12] == a[..16][8..12] && a[12..16] == a[..16][12..];
    assert b[..4] == b[..16][..4] && b[4..8] == b[..16][4..8] && b[8..12] == b[..16][8..12] && b[12..16] == b[..16][12..];
  }

  lemma ReadingIgnoresTime(parse: (RecordKind, ByteString) -> Result<Record>, k: RecordKind, a: ByteString, b: ByteString)
    requires Blank(a) == Blank(b)
    ensures ReadEnveloped(parse, k, a) == ReadEnveloped(parse, k, b)
  {
    BlankDecidesReading(a, b);
    if |a| >= HEADER_SIZE {
      assert a[24..28] == a[24..][..4] && b[24..28] == b[24..][..4];
      assert a[28..] == a[24..][4..] && b[28..] == b[24..][4..];
    }
    HeadersAgree(a, b);
  }

  lemma HeadersAgree(a: ByteString, b: ByteString)
    requires |a| == |b|
    requires |a| >= HEADER_SIZE ==> && a[..4] == b[..4] && a[4..8] == b[4..8] && a[8..12] == b[8..12]
                                    && a[12..16] == b[12..16] && a[24..28] == b[24..28] && a[28..] == b[28..]
    ensures ParseHeader(a).Ok? == ParseHeader(b).Ok?
    ensures ParseHeader(a).Err? ==> ParseHeader(a) == ParseHeader(b)
    ensures ParseHeader(a).Ok? ==>
              && ParseHeader(a).value.schemaVersion == ParseHeader(b).value.schemaVersion
              && ExtractPayload(a, ParseHeader(a).value) == ExtractPayload(b, ParseHeader(b).value)
  {
    if ParseHeader(a).Ok? {
      assert ExtractPayload(a, ParseHeader(a).value) == a[28..];
      assert ExtractPayload(b, ParseHeader(b).value) == b[28..];
    }
  }

  /** The codec of this repository is lawful whenever JSON texts read back what was printed. */
  lemma EnvelopedIsLawful(payload: Record -> ByteString, parse: (RecordKind, ByteString) -> Result<Record>)
    requires forall r :: parse(KindOf(SlotOf(r)), payload(r)) == Ok(r)
    requires forall k, b :: parse(k, b).Ok? ==> KindOf(SlotOf(parse(k, b).value)) == k
    ensures Lawful(Enveloped(payload, parse))
  {
    var c := Enveloped(payload, parse);
    forall k, b | c.read(k, b).Ok?
      ensures KindOf(SlotOf(c.read(k, b).value)) == k
    {
      var h := ParseHeader(b).value;
      assert c.read(k, b) == parse(k, ExtractPayload(b, h));
    }
    forall r, now | c.fits(r)
      ensures c.read(KindOf(SlotOf(r)), c.write(r, now)) == Ok(r)
    {
      EncodeParsesBack(RECORD_VERSION, payload(r), now);
    }
    forall r, t1, t2
      ensures c.core(c.write(r, t1)) == c.core(c.write(r, t2))
    {
      BlankForgetsTime(payload(r), t1, t2);
    }
    forall k, a, b | c.core(a) == c.core(b)
      ensures c.read(k, a) == c.read(k, b)
    {
      ReadingIgnoresTime(parse, k, a, b);
    }
  }
}
