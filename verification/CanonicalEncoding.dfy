/**
 The canonical record format: what the encoder prints, and a parser that is its
 exact inverse. A record is a length-prefixed domain, a field count and fields;
 a list field holds an item count and sub-records laid end to end, without
 lengths of their own.
 */
module CanonicalEncoding {
  import opened Wrappers
  import opened Bytes

  datatype FieldState = Missing | Null | Present

  datatype Field = Field(id: U16, state: FieldState, bytes: ByteString)

  datatype Record = Record(domain: ByteString, fields: seq<Field>) {
    /** Every length survives the cast to u32. */
    ghost predicate Fits() {
      && |domain| < U32_SIZE
      && |fields| < U32_SIZE
      && forall f :: f in fields ==> |f.bytes| < U32_SIZE
    }
  }

  function StateCode(s: FieldState): Byte {
    match s
    case Missing => 0
    case Null => 1
    case Present => 2
  }

  // ------------------------------------------------------------------- printing

  function EncodeField(f: Field): ByteString {
    U16Be(f.id) + [StateCode(f.state)] + U32Be(ToU32(|f.bytes|)) + f.bytes
  }

  function EncodeFields(fs: seq<Field>): ByteString {
    if fs == [] then [] else EncodeField(fs[0]) + EncodeFields(fs[1..])
  }

  function EncodeRecord(r: Record): ByteString {
    U32Be(ToU32(|r.domain|)) + r.domain + U32Be(ToU32(|r.fields|)) + EncodeFields(r.fields)
  }

  function Concat(items: seq<ByteString>): ByteString {
    if items == [] then [] else items[0] + Concat(items[1..])
  }

  function EncodeList(items: seq<ByteString>): ByteString {
    U32Be(ToU32(|items|)) + Concat(items)
  }

  function EncodeRecords(rs: seq<Record>): seq<ByteString> {
    seq(|rs|, i requires 0 <= i < |rs| => EncodeRecord(rs[i]))
  }

  lemma {:induction false} EncodeFieldsAppend(fs: seq<Field>, f: Field)
    ensures EncodeFields(fs + [f]) == EncodeFields(fs) + EncodeField(f)
  {
    if fs == [] {
      assert EncodeFields([f]) == EncodeField(f) + EncodeFields([]);
    } else {
      EncodeFieldsAppend(fs[1..], f);
      assert (fs + [f])[1..] == fs[1..] + [f];
      Associate(EncodeField(fs[0]), EncodeFields(fs[1..]), EncodeField(f));
    }
  }

  lemma {:induction false} ConcatAppend(items: seq<ByteString>, item: ByteString)
    ensures Concat(items + [item]) == Concat(items) + item
  {
    if items == [] {
      assert Concat([item]) == item + Concat([]);
    } else {
      ConcatAppend(items[1..], item);
      assert (items + [item])[1..] == items[1..] + [item];
      Associate(items[0], Concat(items[1..]), item);
    }
  }

  // -------------------------------------------------------------------- parsing

  function ParseField(b: ByteString): Option<(Field, ByteString)> {
    if |b| < 7 then None else
    var id := BeValue(b[..2]);
    var length := BeValue(b[3..7]);
    if id >= 0x1_0000 || b[2] > 2 || |b| - 7 < length then None else
    var state := if b[2] == 0 then Missing else if b[2] == 1 then Null else Present;
    Some((Field(id, state, b[7..7 + length]), b[7 + length..]))
  }

  function ParseFields(b: ByteString, n: nat): Option<(seq<Field>, ByteString)>
    decreases n
  {
    if n == 0 then Some(([], b)) else
    match ParseField(b)
    case None => None
    case Some((f, rest)) =>
      match ParseFields(rest, n - 1)
      case None => None
      case Some((fs, tail)) => Some(([f] + fs, tail))
  }

  function ParseRecord(b: ByteString): Option<(Record, ByteString)> {
    if |b| < 4 then None else
    var length := BeValue(b[..4]);
    if |b| < 8 + length then None else
    match ParseFields(b[8 + length..], BeValue(b[4 + length..8 + length]))
    case None => None
    case Some((fs, tail)) => Some((Record(b[4..4 + length], fs), tail))
  }

  function ParseRecords(b: ByteString, n: nat): Option<(seq<Record>, ByteString)>
    decreases n
  {
    if n == 0 then Some(([], b)) else
    match ParseRecord(b)
    case None => None
    case Some((r, rest)) =>
      match ParseRecords(rest, n - 1)
      case None => None
      case Some((rs, tail)) => Some(([r] + rs, tail))
  }

  function ParseList(b: ByteString): Option<seq<Record>> {
    if |b| < 4 then None else
    match ParseRecords(b[4..], BeValue(b[..4]))
    case None => None
    case Some((rs, tail)) => if tail == [] then Some(rs) else None
  }

  // ----------------------------------------------------- parsing inverts printing

  /** Splitting a byte string at the borders it was glued from. */
  lemma Cut(a: ByteString, b: ByteString, c: ByteString, d: ByteString)
    ensures var s := a + b + c + d;
            && s[..|a|] == a
            && s[|a|..|a| + |b|] == b
            && s[|a| + |b|..|a| + |b| + |c|] == c
            && s[|a| + |b| + |c|..] == d
  {
  }

  lemma Glue(s: ByteString, i: nat, j: nat, k: nat)
    requires i <= j <= k <= |s|
    ensures s == s[..i] + s[i..j] + s[j..k] + s[k..]
  {
  }

  lemma Regroup(a: ByteString, b: ByteString, c: ByteString, d: ByteString, e: ByteString)
    ensures a + b + c + d + e == a + b + c + (d + e)
  {
  }

  lemma ParseFieldOf(id: ByteString, state: FieldState, length: ByteString, rest: ByteString)
    requires |id| == 2 && |length| == 4 && BeValue(id) < 0x1_0000 && BeValue(length) <= |rest|
    ensures ParseField(id + [StateCode(state)] + length + rest)
         == Some((Field(BeValue(id), state, rest[..BeValue(length)]), rest[BeValue(length)..]))
  {
    Cut(id, [StateCode(state)], length, rest);
    var b := id + [StateCode(state)] + length + rest;
    var n := BeValue(length);
    assert b[7..7 + n] == rest[..n] && b[7 + n..] == rest[n..];
  }

  lemma ParseFieldReads(f: Field, rest: ByteString)
    requires |f.bytes| < U32_SIZE
    ensures ParseField(EncodeField(f) + rest) == Some((f, rest))
  {
    var id, length := U16Be(f.id), U32Be(|f.bytes|);
    ParseFieldOf(id, f.state, length, f.bytes + rest);
    Regroup(id, [StateCode(f.state)], length, f.bytes, rest);
  }

  lemma ParseFieldPrints(b: ByteString, f: Field, rest: ByteString)
    requires ParseField(b) == Some((f, rest))
    ensures b == EncodeField(f) + rest && |f.bytes| < U32_SIZE && |rest| < |b|
  {
    U16BePrintsBack(b[..2]);
    U32BePrintsBack(b[3..7]);
    Glue(b, 2, 3, 7);
    assert b[2..3] == [StateCode(f.state)];
    assert b[7..] == f.bytes + rest;
  }

  lemma {:induction false} ParseFieldsReads(fs: seq<Field>, rest: ByteString)
    requires forall f :: f in fs ==> |f.bytes| < U32_SIZE
    ensures ParseFields(EncodeFields(fs) + rest, |fs|) == Some((fs, rest))
  {
    if fs == [] {
      assert EncodeFields(fs) + rest == rest;
    } else {
      ParseFieldsReads(fs[1..], rest);
      ParseFieldReads(fs[0], EncodeFields(fs[1..]) + rest);
      Associate(EncodeField(fs[0]), EncodeFields(fs[1..]), rest);
      assert fs == [fs[0]] + fs[1..];
    }
  }

  lemma {:induction false} ParseFieldsPrints(b: ByteString, n: nat, fs: seq<Field>, rest: ByteString)
    requires ParseFields(b, n) == Some((fs, rest))
    ensures b == EncodeFields(fs) + rest && |fs| == n
    ensures forall f :: f in fs ==> |f.bytes| < U32_SIZE
  {
    if n == 0 {
      assert EncodeFields(fs) + rest == rest;
    } else {
      var (f, tail) := ParseField(b).value;
      ParseFieldPrints(b, f, tail);
      ParseFieldsPrints(tail, n - 1, fs[1..], rest);
      assert fs == [f] + fs[1..];
      Associate(EncodeField(f), EncodeFields(fs[1..]), rest);
    }
  }

  lemma ParseRecordOf(length: ByteString, domain: ByteString, count: ByteString, body: ByteString)
    requires |length| == 4 && |count| == 4 && BeValue(length) == |domain|
    ensures ParseRecord(length + domain + count + body)
         == match ParseFields(body, BeValue(count))
            case None => None
            case Some((fs, tail)) => Some((Record(domain, fs), tail))
  {
    Cut(length, domain, count, body);
  }

  /** What the encoder prints is read back exactly, whatever follows it. */
  lemma ParseRecordReads(r: Record, rest: ByteString)
    requires r.Fits()
    ensures ParseRecord(EncodeRecord(r) + rest) == Some((r, rest))
  {
    var length, count := U32Be(|r.domain|), U32Be(|r.fields|);
    var body := EncodeFields(r.fields) + rest;
    assert EncodeRecord(r) + rest == length + r.domain + count + body by {
      Regroup(length, r.domain, count, EncodeFields(r.fields), rest);
    }
    assert ParseRecord(length + r.domain + count + body) == Some((r, rest)) by {
      ParseFieldsReads(r.fields, rest);
      ParseRecordOf(length, r.domain, count, body);
    }
  }

  /** Every byte string the parser accepts is an encoding, and of a record that fits. */
  lemma ParseRecordPrints(b: ByteString, r: Record, rest: ByteString)
    requires ParseRecord(b) == Some((r, rest))
    ensures b == EncodeRecord(r) + rest && r.Fits()
  {
    var n := BeValue(b[..4]);
    U32BePrintsBack(b[..4]);
    U32BePrintsBack(b[4 + n..8 + n]);
    ParseFieldsPrints(b[8 + n..], BeValue(b[4 + n..8 + n]), r.fields, rest);
    Glue(b, 4, 4 + n, 8 + n);
    Regroup(b[..4], b[4..4 + n], b[4 + n..8 + n], EncodeFields(r.fields), rest);
  }

  /** Whatever bytes follow, an encoding is read back with them left over for exactly the
      records whose lengths fit u32. */
  lemma SelfDelimiting(r: Record, rest: ByteString)
    ensures ParseRecord(EncodeRecord(r) + rest) == Some((r, rest)) <==> r.Fits()
  {
    if r.Fits() {
      ParseRecordReads(r, rest);
    } else if ParseRecord(EncodeRecord(r) + rest) == Some((r, rest)) {
      ParseRecordPrints(EncodeRecord(r) + rest, r, rest);
    }
  }

  /** No encoding is a prefix of another one, and equal encodings are equal records. */
  lemma EncodingIsPrefixFree(r: Record, s: Record, x: ByteString, y: ByteString)
    requires r.Fits() && s.Fits()
    requires EncodeRecord(r) + x == EncodeRecord(s) + y
    ensures r == s && x == y
  {
    ParseRecordReads(r, x);
    ParseRecordReads(s, y);
  }

  lemma EncodingIsInjective(r: Record, s: Record)
    requires r.Fits() && s.Fits()
    ensures EncodeRecord(r) == EncodeRecord(s) <==> r == s
  {
    if EncodeRecord(r) == EncodeRecord(s) {
      EncodingIsPrefixFree(r, s, [], []);
    }
  }

  /** Preimages under different domain strings never coincide. */
  lemma DomainsAreSeparated(r: Record, s: Record)
    requires r.Fits() && s.Fits() && r.domain != s.domain
    ensures EncodeRecord(r) != EncodeRecord(s)
  {
    EncodingIsInjective(r, s);
  }

  lemma {:induction false} ParseRecordsReads(rs: seq<Record>, rest: ByteString)
    requires forall r :: r in rs ==> r.Fits()
    ensures ParseRecords(Concat(EncodeRecords(rs)) + rest, |rs|) == Some((rs, rest))
  {
    if rs == [] {
      assert Concat(EncodeRecords(rs)) + rest == rest;
    } else {
      var tail := Concat(EncodeRecords(rs[1..])) + rest;
      assert Concat(EncodeRecords(rs)) + rest == EncodeRecord(rs[0]) + tail by {
        EncodeRecordsSplit(rs);
        Associate(EncodeRecord(rs[0]), Concat(EncodeRecords(rs[1..])), rest);
      }
      ParseRecordsReads(rs[1..], rest);
      ParseRecordReads(rs[0], tail);
      assert rs == [rs[0]] + rs[1..];
    }
  }

  lemma EncodeRecordsSplit(rs: seq<Record>)
    requires rs != []
    ensures Concat(EncodeRecords(rs)) == EncodeRecord(rs[0]) + Concat(EncodeRecords(rs[1..]))
  {
    assert EncodeRecords(rs)[1..] == EncodeRecords(rs[1..]);
  }

  /** A list is recovered item by item although its items carry no lengths. */
  lemma ParseListReads(rs: seq<Record>)
    requires |rs| < U32_SIZE && forall r :: r in rs ==> r.Fits()
    ensures ParseList(EncodeList(EncodeRecords(rs))) == Some(rs)
  {
    ParseRecordsReads(rs, []);
    var count, body := U32Be(|rs|), Concat(EncodeRecords(rs));
    Cut(count, [], [], body);
    assert count + [] + [] + body == count + body && body + [] == body;
  }
}
