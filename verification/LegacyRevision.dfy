/** How a textual revision of the old store becomes a 64-bit number. */
module LegacyRevision {
  import opened Bytes
  import opened Decimals

  // --------------------------------------------------------------- strtoull in base 10

  /** The bytes before the first NUL. */
  function CString(s: ByteString): ByteString {
    if s == [] || s[0] == 0 then [] else [s[0]] + CString(s[1..])
  }

  predicate IsSpace(b: Byte) {
    b == 32 || 9 <= b <= 13
  }

  function SpacesIn(s: ByteString): (n: nat)
    ensures n <= |s|
  {
    if s == [] || !IsSpace(s[0]) then 0 else 1 + SpacesIn(s[1..])
  }

  function DigitsIn(s: ByteString): (n: nat)
    ensures n <= |s| && forall i :: 0 <= i < n ==> IsDigit(s[i])
  {
    if s == [] || !IsDigit(s[0]) then 0 else 1 + DigitsIn(s[1..])
  }

  predicate IsSign(b: Byte) {
    b == 43 || b == 45
  }

  /** Where the conversion stopped, whether it overflowed, and the value otherwise. */
  datatype Scan = Scan(end: nat, overflow: bool, value: U64)

  function Strtoull(s: ByteString): Scan {
    var text := CString(s);
    var spaces := SpacesIn(text);
    var signed := spaces < |text| && IsSign(text[spaces]);
    var start := if signed then spaces + 1 else spaces;
    var digits := DigitsIn(text[start..]);
    if digits == 0 then Scan(0, false, 0) else
    var v := Number(text[start..][..digits]);
    if v >= U64_SIZE then Scan(start + digits, true, U64_SIZE - 1)
    else Scan(start + digits, false, if signed && text[spaces] == 45 then ToU64(0 - v as int) else v)
  }

  // -------------------------------------------------------------------------- fallback

  const FNV_OFFSET: bv64 := 1469598103934665603
  const FNV_PRIME: bv64 := 1099511628211

  function FnvStep(hash: bv64, b: Byte): bv64 {
    (hash ^ (b as bv64)) * FNV_PRIME
  }

  function Fnv(s: ByteString): bv64 {
    if s == [] then FNV_OFFSET else FnvStep(Fnv(s[..|s| - 1]), s[|s| - 1])
  }

  method FnvHash(s: ByteString) returns (hash: bv64)
    ensures hash == Fnv(s)
  {
    hash := FNV_OFFSET;
    for i := 0 to |s|
      invariant hash == Fnv(s[..i])
    {
      assert s[..i + 1][..i] == s[..i];
      hash := FnvStep(hash, s[i]);
    }
    assert s[..|s|] == s;
  }

  function HashValue(hash: bv64): U64 {
    hash as U64
  }

  function RevisionToUint64(s: ByteString): U64 {
    var scan := Strtoull(s);
    if s != [] && !scan.overflow && scan.end == |CString(s)| then scan.value
    else HashValue(Fnv(s))
  }

  method ConvertRevision(s: ByteString) returns (revision: U64)
    ensures revision == RevisionToUint64(s)
  {
    if s != [] {
      var scan := Strtoull(s);
      if !scan.overflow && scan.end == |CString(s)| {
        return scan.value;
      }
    }
    var hash := FnvHash(s);
    revision := HashValue(hash);
  }

  // -------------------------------------------------------------------------- theorems

  lemma {:induction false} CStringOfDigits(s: ByteString)
    requires forall i :: 0 <= i < |s| ==> IsDigit(s[i])
    ensures CString(s) == s && DigitsIn(s) == |s|
  {
    if s != [] {
      CStringOfDigits(s[1..]);
    }
  }

  predicate IsDigits(s: ByteString) {
    s != [] && forall i :: 0 <= i < |s| ==> IsDigit(s[i])
  }

  lemma DigitsAreRead(s: ByteString)
    requires IsDigits(s) && Number(s) < U64_SIZE
    ensures RevisionToUint64(s) == Number(s)
  {
    CStringOfDigits(s);
    assert s[0..] == s && s[..|s|] == s;
  }

  /** Reading a revision undoes decimal printing for every 64-bit number. */
  lemma RevisionInvertsDecimal(n: U64)
    ensures RevisionToUint64(Decimal(n)) == n
  {
    NumberOfDecimal(n);
    DigitsAreRead(Decimal(n));
  }

  /** Distinct numbers, printed canonically, stay distinct revisions. */
  lemma CanonicalRevisionsStayDistinct(a: U64, b: U64)
    ensures RevisionToUint64(Decimal(a)) == RevisionToUint64(Decimal(b)) <==> Decimal(a) == Decimal(b)
  {
    RevisionInvertsDecimal(a);
    RevisionInvertsDecimal(b);
  }

  /** Of two digit strings below 2^64, those with the same value share a revision, however
      many leading zeros they have, and only those. */
  lemma DigitRevisionsCollideByValue(s: ByteString, t: ByteString)
    requires IsDigits(s) && IsDigits(t) && Number(s) < U64_SIZE && Number(t) < U64_SIZE
    ensures RevisionToUint64(s) == RevisionToUint64(t) <==> Number(s) == Number(t)
  {
    DigitsAreRead(s);
    DigitsAreRead(t);
  }

  lemma LeadingZeroCollides()
    ensures Ascii("7") != Ascii("07") && RevisionToUint64(Ascii("7")) == RevisionToUint64(Ascii("07"))
  {
    var s, t: ByteString := [55], [48, 55];
    assert Ascii("7") == s && Ascii("07") == t;
    assert s[..0] == [] && t[..1] == [48] && t[..1][..0] == [];
    assert Number([48]) == 0 && Number(s) == 7 && Number(t) == 7;
    DigitRevisionsCollideByValue(s, t);
  }
}
