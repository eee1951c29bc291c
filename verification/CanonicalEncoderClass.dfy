/** The encoder object: every write appends to a buffer, `Finalize` fills in the count. */
module CanonicalEncoderClass {
  import opened Wrappers
  import opened Bytes
  import opened CanonicalEncoding

  class CanonicalEncoder {
    var buf: seq<Byte>
    var fieldCountPos: nat
    var fieldCount: U32
    ghost var record: Record   // what has been written so far

    ghost predicate Valid()
      reads this
    {
      && fieldCountPos == 4 + |record.domain|
      && fieldCount == ToU32(|record.fields|)
      && buf == Head() + EncodeFields(record.fields)
    }

    ghost function Head(): ByteString
      reads this`record
    {
      U32Be(ToU32(|record.domain|)) + record.domain + [0, 0, 0, 0]
    }

    constructor (domain: ByteString)
      ensures Valid() && record == Record(domain, [])
    {
      buf := [];
      fieldCountPos := 0;
      fieldCount := 0;
      record := Record(domain, []);
      new;
      PutU32Be(ToU32(|domain|));
      PutBytes(domain);
      fieldCountPos := |buf|;
      PutU32Be(0);
      assert U32Be(0) == [0, 0, 0, 0];
      assert buf == U32Be(ToU32(|domain|)) + domain + [0, 0, 0, 0] + [];
    }

    method PutU8(v: Byte)
      modifies this`buf
      ensures buf == old(buf) + [v]
    {
      buf := buf + [v];
    }

    method PutU16Be(v: U16)
      modifies this`buf
      ensures buf == old(buf) + U16Be(v)
    {
      PutU8((v / 0x100) % 0x100);
      PutU8(v % 0x100);
      assert BeBytes(v / 0x100, 1) == [v / 0x100 % 0x100];
    }

    method PutU32Be(v: U32)
      modifies this`buf
      ensures buf == old(buf) + U32Be(v)
    {
      PutU8((v / 0x100_0000) % 0x100);
      PutU8((v / 0x1_0000) % 0x100);
      PutU8((v / 0x100) % 0x100);
      PutU8(v % 0x100);
      U32BeBytes(v);
    }

    method PutBytes(bytes: ByteString)
      modifies this`buf
      ensures buf == old(buf) + bytes
    {
      if |bytes| > 0 {
        buf := buf + bytes;
      }
    }

    method PutFieldHeader(fieldId: U16, state: FieldState, length: U32)
      modifies this`buf
      ensures buf == old(buf) + U16Be(fieldId) + [StateCode(state)] + U32Be(length)
    {
      PutU16Be(fieldId);
      PutU8(StateCode(state));
      PutU32Be(length);
    }

    /** Header, payload and count of one field: the shape all writers share. */
    method WriteField(fieldId: U16, state: FieldState, bytes: ByteString)
      requires Valid()
      modifies this
      ensures Valid()
      ensures record == old(record).(fields := old(record.fields) + [Field(fieldId, state, bytes)])
    {
      PutFieldHeader(fieldId, state, ToU32(|bytes|));
      PutBytes(bytes);
      AddU32Casts(|record.fields|, 1);
      fieldCount := AddU32(fieldCount, 1);
      Written(old(buf), buf, Field(fieldId, state, bytes));
      record := record.(fields := record.fields + [Field(fieldId, state, bytes)]);
    }

    /** Bookkeeping of the writers: one more encoded field stands at the end of the buffer. */
    lemma Written(before: ByteString, after: ByteString, f: Field)
      requires before == Head() + EncodeFields(record.fields)
      requires after == before + U16Be(f.id) + [StateCode(f.state)] + U32Be(ToU32(|f.bytes|)) + f.bytes
      ensures after == Head() + EncodeFields(record.fields + [f])
    {
      EncodeFieldsAppend(record.fields, f);
      assert after == before + EncodeField(f);
    }

    method WriteStringField(fieldId: U16, value: ByteString)
      requires Valid()
      modifies this
      ensures Valid()
      ensures record == old(record).(fields := old(record.fields) + [StringField(fieldId, value)])
    {
      WriteField(fieldId, Present, value);
    }

    method WriteOptionalStringField(fieldId: U16, value: Option<ByteString>)
      requires Valid()
      modifies this
      ensures Valid()
      ensures record == old(record).(fields := old(record.fields) + [OptionalField(fieldId, value)])
    {
      if value.None? {
        WriteField(fieldId, Missing, []);
      } else {
        WriteField(fieldId, Present, value.value);
      }
    }

    method WriteEnumField(fieldId: U16, code: U32)
      requires Valid()
      modifies this
      ensures Valid()
      ensures record == old(record).(fields := old(record.fields) + [EnumField(fieldId, code)])
    {
      WriteField(fieldId, Present, U32Be(code));
    }

    /** The declared length of a list payload, summed in 32-bit arithmetic. */
    static method ListLength(items: seq<ByteString>) returns (totalLen: U32)
      ensures totalLen == ToU32(|EncodeList(items)|)
    {
      totalLen := 4;
      for i := 0 to |items|
        invariant totalLen == ToU32(4 + |Concat(items[..i])|)
      {
        ConcatAppend(items[..i], items[i]);
        assert items[..i + 1] == items[..i] + [items[i]];
        totalLen := AddU32(totalLen, |items[i]|);
        AddU32Casts(4 + |Concat(items[..i])|, |items[i]|);
      }
      assert items[..|items|] == items;
    }

    method WriteListField(fieldId: U16, items: seq<ByteString>)
      requires Valid()
      modifies this
      ensures Valid()
      ensures record == old(record).(fields := old(record.fields) + [ListField(fieldId, items)])
    {
      var totalLen := ListLength(items);
      PutFieldHeader(fieldId, Present, totalLen);
      PutU32Be(ToU32(|items|));
      ghost var start := buf;
      for i := 0 to |items|
        invariant buf == start + Concat(items[..i])
        invariant record == old(record) && fieldCount == old(fieldCount) && fieldCountPos == old(fieldCountPos)
      {
        ConcatAppend(items[..i], items[i]);
        assert items[..i + 1] == items[..i] + [items[i]];
        PutBytes(items[i]);
      }
      assert items[..|items|] == items;
      ghost var f := ListField(fieldId, items);
      ghost var header := old(buf) + U16Be(fieldId) + [StateCode(Present)] + U32Be(totalLen);
      assert buf == header + f.bytes by {
        assert start == header + U32Be(ToU32(|items|));
        Cut(header, U32Be(ToU32(|items|)), Concat(items), []);
      }
      Written(old(buf), buf, f);
      AddU32Casts(|record.fields|, 1);
      fieldCount := AddU32(fieldCount, 1);
      record := record.(fields := record.fields + [f]);
    }

    /** Overwrites the count in place and moves the buffer out: the object is spent. */
    method Finalize() returns (bytes: ByteString)
      requires Valid()
      modifies this
      ensures bytes == EncodeRecord(old(record))
      ensures buf == []
    {
      var fc := fieldCount;
      buf := buf[fieldCountPos := (fc / 0x100_0000) % 0x100];
      buf := buf[fieldCountPos + 1 := (fc / 0x1_0000) % 0x100];
      buf := buf[fieldCountPos + 2 := (fc / 0x100) % 0x100];
      buf := buf[fieldCountPos + 3 := fc % 0x100];
      U32BeBytes(fc);
      bytes := buf;
      assert bytes == EncodeRecord(record);
      buf := [];
    }
  }

  /** u32 addition of a value cast to u32. */
  function AddU32(a: U32, n: nat): U32 {
    ToU32(a + ToU32(n))
  }

  lemma AddU32Casts(m: nat, n: nat)
    ensures AddU32(ToU32(m), n) == ToU32(m + n)
  {
    ModAdds(m, n);
  }

  lemma ModAdds(m: nat, n: nat)
    ensures (m % 0x1_0000_0000 + n % 0x1_0000_0000) % 0x1_0000_0000 == (m + n) % 0x1_0000_0000
  {
  }

  function StringField(id: U16, value: ByteString): Field {
    Field(id, Present, value)
  }

  function OptionalField(id: U16, value: Option<ByteString>): Field {
    match value
    case None => Field(id, Missing, [])
    case Some(v) => Field(id, Present, v)
  }

  function EnumField(id: U16, code: U32): Field {
    Field(id, Present, U32Be(code))
  }

  function ListField(id: U16, items: seq<ByteString>): Field {
    Field(id, Present, EncodeList(items))
  }

  /** The four shift-and-mask bytes are the big-endian form. */
  lemma U32BeBytes(v: U32)
    ensures U32Be(v) == [v / 0x100_0000 % 0x100, v / 0x1_0000 % 0x100, v / 0x100 % 0x100, v % 0x100]
  {
    assert v / 0x100 / 0x100 == v / 0x1_0000 && v / 0x1_0000 / 0x100 == v / 0x100_0000;
    assert BeBytes(v / 0x100_0000, 1) == [v / 0x100_0000 % 0x100];
    assert U16Be(v / 0x1_0000) == BeBytes(v / 0x100_0000, 1) + [v / 0x1_0000 % 0x100];
    assert BeBytes(v / 0x100, 3) == U16Be(v / 0x1_0000) + [v / 0x100 % 0x100];
  }
}
