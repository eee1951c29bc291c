/** The FTSE envelope: a 28-byte little-endian header in front of a payload. */
module Envelope {
  import opened Wrappers
  import opened Bytes

  datatype Header = Header(
    schemaVersion: U32,
    writerVersion: U32,
    minReaderVersion: U32,
    writtenAt: I64,
    payloadLen: U32)

  const MAGIC: ByteString := [70, 84, 83, 69]
  const HEADER_SIZE: nat := 28
  const WRITER_VERSION: U32 := 2
  const MIN_READER_VERSION: U32 := 0

  function U32Le(v: U32): (b: ByteString)
    ensures |b| == 4 && LeValue(b) == v
  {
    Widths();
    LeReadsBack(v, 4);
    LeBytes(v, 4)
  }

  /** A signed 64-bit value, stored through its cast to unsigned. */
  function I64Le(v: I64): (b: ByteString)
    ensures |b| == 8 && ToI64(LeValue(b)) == v
  {
    Widths();
    LeReadsBack(ToU64(v), 8);
    I64RoundTrip(v);
    LeBytes(ToU64(v), 8)
  }

  lemma U32LePrintsBack(b: ByteString)
    requires |b| == 4
    ensures LeValue(b) < U32_SIZE && U32Le(LeValue(b)) == b
  {
    Widths();
    LeValueBound(b);
    LePrintsBack(b);
  }

  lemma I64LePrintsBack(b: ByteString)
    requires |b| == 8
    ensures I64Le(ToI64(LeValue(b))) == b
  {
    Widths();
    LeValueBound(b);
    LePrintsBack(b);
    assert ToU64(ToI64(LeValue(b))) == LeValue(b);
  }

  /** The bytes a header and a payload are laid out as. */
  function Render(h: Header, payload: ByteString): ByteString {
    RenderHeader(h) + payload
  }

  function RenderHeader(h: Header): (b: ByteString)
    ensures |b| == HEADER_SIZE
  {
    MAGIC + U32Le(h.schemaVersion) + U32Le(h.writerVersion) + U32Le(h.minReaderVersion)
    + I64Le(h.writtenAt) + U32Le(h.payloadLen)
  }

  function EncodeEnvelope(schemaVersion: U32, payload: ByteString, now: I64): ByteString {
    Render(Header(schemaVersion, WRITER_VERSION, MIN_READER_VERSION, now, ToU32(|payload|)), payload)
  }

  function ReadHeader(b: ByteString): Header
    requires |b| >= HEADER_SIZE
  {
    U32LePrintsBack(b[4..8]);
    U32LePrintsBack(b[8..12]);
    U32LePrintsBack(b[12..16]);
    U32LePrintsBack(b[24..28]);
    Header(LeValue(b[4..8]), LeValue(b[8..12]), LeValue(b[12..16]), ToI64(LeValue(b[16..24])), LeValue(b[24..28]))
  }

  function ParseHeader(b: ByteString): (r: Result<Header>)
    ensures r.Ok? ==> |b| == HEADER_SIZE + r.value.payloadLen
  {
    if |b| < HEADER_SIZE then Err("envelope truncated")
    else if b[..4] != MAGIC then Err("envelope bad magic")
    else
      var h := ReadHeader(b);
      if |b| != HEADER_SIZE + h.payloadLen then Err("envelope length mismatch")
      else if h.minReaderVersion > WRITER_VERSION then Err("envelope minReaderVersion too high")
      else Ok(h)
  }

  function ExtractPayload(b: ByteString, h: Header): ByteString
    requires |b| == HEADER_SIZE + h.payloadLen
  {
    b[HEADER_SIZE..HEADER_SIZE + h.payloadLen]
  }

  // ------------------------------------------------------------------ the code's loops

  method PutU32Le(out: ByteString, v: U32) returns (r: ByteString)
    ensures r == out + U32Le(v)
  {
    r := out + [v % 0x100] + [v / 0x100 % 0x100] + [v / 0x1_0000 % 0x100] + [v / 0x100_0000 % 0x100];
    U32LeBytes(v);
  }

  lemma U32LeBytes(v: U32)
    ensures U32Le(v) == [v % 0x100, v / 0x100 % 0x100, v / 0x1_0000 % 0x100, v / 0x100_0000 % 0x100]
  {
    assert v / 0x100 / 0x100 == v / 0x1_0000 && v / 0x1_0000 / 0x100 == v / 0x100_0000;
    assert LeBytes(v / 0x100_0000, 1) == [v / 0x100_0000 % 0x100];
    assert LeBytes(v / 0x1_0000, 2) == [v / 0x1_0000 % 0x100] + LeBytes(v / 0x100_0000, 1);
    assert LeBytes(v / 0x100, 3) == [v / 0x100 % 0x100] + LeBytes(v / 0x1_0000, 2);
  }

  /** Appends byte by byte, low byte first; the shift is a division done step by step. */
  method PutU64Le(out: ByteString, v: I64) returns (r: ByteString)
    ensures r == out + I64Le(v)
  {
    r := PutLe(out, ToU64(v), 8);
  }

  method PutLe(out: ByteString, v: nat, n: nat) returns (r: ByteString)
    ensures r == out + LeBytes(v, n)
  {
    r := out;
    var u := v;
    for i := 0 to n
      invariant r == out + LeBytes(v, n)[..i]
      invariant LeBytes(u, n - i) == LeBytes(v, n)[i..]
    {
      assert LeBytes(u, n - i)[0] == u % 256 && LeBytes(u, n - i)[1..] == LeBytes(u / 256, n - i - 1);
      r := r + [u % 256];
      u := u / 256;
    }
  }

  /** Ors in byte by byte at growing shifts. */
  method GetU64Le(b: ByteString, off: nat) returns (v: I64)
    requires off + 8 <= |b|
    ensures v == ToI64(LeValue(b[off..off + 8]))
  {
    var u: nat := 0;
    var weight := 1;
    for i := 0 to 8
      invariant weight == Pow256(i)
      invariant u + weight * LeValue(b[off + i..off + 8]) == LeValue(b[off..off + 8])
    {
      var rest := b[off + i..off + 8];
      assert rest[1..] == b[off + i + 1..off + 8];
      Distribute(weight, rest[0], LeValue(rest[1..]));
      u := u + b[off + i] * weight;
      weight := weight * 256;
    }
    assert b[off + 8..off + 8] == [];
    v := ToI64(u);
  }

  lemma Distribute(w: int, a: int, c: int)
    ensures w * (a + 256 * c) == a * w + w * 256 * c
  {
  }

  method BuildEnvelope(schemaVersion: U32, payload: ByteString, now: I64) returns (out: ByteString)
    ensures out == EncodeEnvelope(schemaVersion, payload, now)
  {
    out := MAGIC;
    out := PutU32Le(out, schemaVersion);
    out := PutU32Le(out, WRITER_VERSION);
    out := PutU32Le(out, MIN_READER_VERSION);
    out := PutU64Le(out, now);
    out := PutU32Le(out, ToU32(|payload|));
    out := out + payload;
  }

  // --------------------------------------------------------------------- round trips

  lemma HeaderReadsBack(h: Header, payload: ByteString)
    ensures var b := Render(h, payload);
            && b[..4] == MAGIC && ReadHeader(b) == h && b[HEADER_SIZE..] == payload
  {
    var b := Render(h, payload);
    var head := RenderHeader(h);
    assert b[..4] == head[..4] == MAGIC;
    assert b[4..8] == head[4..8] == U32Le(h.schemaVersion);
    assert b[8..12] == head[8..12] == U32Le(h.writerVersion);
    assert b[12..16] == head[12..16] == U32Le(h.minReaderVersion);
    assert b[16..24] == head[16..24] == I64Le(h.writtenAt);
    assert b[24..28] == head[24..28] == U32Le(h.payloadLen);
  }

  lemma HeaderPrintsBack(b: ByteString)
    requires |b| >= HEADER_SIZE && b[..4] == MAGIC
    ensures b == Render(ReadHeader(b), b[HEADER_SIZE..])
  {
    U32LePrintsBack(b[4..8]);
    U32LePrintsBack(b[8..12]);
    U32LePrintsBack(b[12..16]);
    I64LePrintsBack(b[16..24]);
    U32LePrintsBack(b[24..28]);
    var head := b[..4] + b[4..8] + b[8..12] + b[12..16] + b[16..24] + b[24..28];
    assert head == RenderHeader(ReadHeader(b));
    assert b == head + b[28..];
  }

  /** Parsing accepts exactly the renderings of readable headers, and only with their own fields. */
  lemma ParseIffRendered(b: ByteString, h: Header)
    ensures ParseHeader(b) == Ok(h) <==>
            && |b| == HEADER_SIZE + h.payloadLen
            && h.minReaderVersion <= WRITER_VERSION
            && b == Render(h, b[HEADER_SIZE..])
  {
    if ParseHeader(b) == Ok(h) {
      HeaderPrintsBack(b);
    } else if |b| == HEADER_SIZE + h.payloadLen && b == Render(h, b[HEADER_SIZE..]) {
      HeaderReadsBack(h, b[HEADER_SIZE..]);
    }
  }

  /** An accepted byte string is its header and payload put together again. */
  lemma ParsedIsRendered(b: ByteString, h: Header)
    requires ParseHeader(b) == Ok(h)
    ensures b == Render(h, ExtractPayload(b, h))
  {
    ParseIffRendered(b, h);
    assert ExtractPayload(b, h) == b[HEADER_SIZE..];
  }

  /** Encode then parse and extract is the identity; a payload of 4 GiB or more is the
      one thing that fails, because its length is cut to 32 bits. */
  lemma EncodeParsesBack(schemaVersion: U32, payload: ByteString, now: I64)
    ensures ParseHeader(EncodeEnvelope(schemaVersion, payload, now)).Ok? <==> |payload| < U32_SIZE
    ensures |payload| < U32_SIZE ==>
              var b := EncodeEnvelope(schemaVersion, payload, now);
              var h := Header(schemaVersion, WRITER_VERSION, MIN_READER_VERSION, now, |payload|);
              ParseHeader(b) == Ok(h) && ExtractPayload(b, h) == payload
  {
    HeaderReadsBack(Header(schemaVersion, WRITER_VERSION, MIN_READER_VERSION, now, ToU32(|payload|)), payload);
  }
}
