/** Which texts of the old store count as numbers, and what every other one becomes. */
module RevisionTexts {
  import opened Bytes
  import opened Decimals
  import opened LegacyRevision

  predicate AllSpaces(s: ByteString) {
    forall i :: 0 <= i < |s| ==> s[i] == 32 || 9 <= s[i] <= 13
  }

  predicate AllDigits(s: ByteString) {
    s != [] && forall i :: 0 <= i < |s| ==> 48 <= s[i] <= 57
  }

  /** The text up to its first NUL is white space, at most one sign, and digits. */
  predicate Reads(text: ByteString, spaces: ByteString, sign: ByteString, digits: ByteString) {
    && text == spaces + sign + digits && AllSpaces(spaces) && AllDigits(digits)
    && (sign == [] || sign == [43] || sign == [45])
  }

  ghost predicate IsNumeral(text: ByteString) {
    exists spaces, sign, digits :: Reads(text, spaces, sign, digits)
  }

  lemma {:induction false} SpacesEnd(spaces: ByteString, rest: ByteString)
    requires AllSpaces(spaces) && (rest == [] || !IsSpace(rest[0]))
    ensures SpacesIn(spaces + rest) == |spaces|
  {
    if spaces == [] {
      assert spaces + rest == rest;
    } else {
      assert (spaces + rest)[1..] == spaces[1..] + rest;
      SpacesEnd(spaces[1..], rest);
    }
  }

  lemma {:induction false} DigitsEnd(digits: ByteString)
    requires forall i :: 0 <= i < |digits| ==> 48 <= digits[i] <= 57
    ensures DigitsIn(digits) == |digits|
  {
    if digits != [] {
      DigitsEnd(digits[1..]);
    }
  }

  /** A number below 2^64, or 2^64 less a negative one. */
  function Signed(sign: ByteString, n: nat): int {
    if sign == [45] && n > 0 then 0x1_0000_0000_0000_0000 - n else n
  }

  lemma SignedIsCast(n: nat)
    requires n < 0x1_0000_0000_0000_0000
    ensures ToU64(0 - n) == Signed([45], n)
  {
  }

  lemma Parts(a: ByteString, b: ByteString, c: ByteString)
    ensures a + b + c == a + (b + c) && (a + b + c)[|a| + |b|..] == c
    ensures b + c != [] ==> (a + b + c)[|a|] == (b + c)[0]
  {
  }

  lemma FirstAfterSpaces(sign: ByteString, digits: ByteString)
    requires AllDigits(digits) && (sign == [] || sign == [43] || sign == [45])
    ensures var rest := sign + digits;
            && rest != [] && !IsSpace(rest[0]) && (IsSign(rest[0]) <==> sign != []) && (sign != [] ==> rest[0] == sign[0])
  {
    if sign == [] {
      assert sign + digits == digits;
    } else {
      assert (sign + digits)[0] == sign[0];
    }
  }

  lemma NumeralParts(text: ByteString, spaces: ByteString, sign: ByteString, digits: ByteString)
    requires Reads(text, spaces, sign, digits)
    ensures SpacesIn(text) == |spaces| && |spaces| < |text|
    ensures IsSign(text[|spaces|]) <==> sign != []
    ensures sign != [] ==> text[|spaces|] == sign[0]
    ensures text[|spaces| + |sign|..] == digits && DigitsIn(digits) == |digits| && digits[..|digits|] == digits
  {
    Parts(spaces, sign, digits);
    FirstAfterSpaces(sign, digits);
    SpacesEnd(spaces, sign + digits);
    DigitsEnd(digits);
  }

  lemma StrtoullOf(s: ByteString, spaces: nat, start: nat, digits: ByteString)
    requires spaces == SpacesIn(CString(s)) && spaces < |CString(s)|
    requires start == if IsSign(CString(s)[spaces]) then spaces + 1 else spaces
    requires CString(s)[start..] == digits && digits != [] && DigitsIn(digits) == |digits| && digits[..|digits|] == digits
    ensures Strtoull(s)
         == if Number(digits) >= 0x1_0000_0000_0000_0000 then Scan(|CString(s)|, true, 0xFFFF_FFFF_FFFF_FFFF)
            else Scan(|CString(s)|, false,
                      if start > spaces && CString(s)[spaces] == 45 then ToU64(0 - Number(digits)) else Number(digits))
  {
  }

  lemma ScannedAs(s: ByteString, spaces: nat, sign: ByteString, digits: ByteString)
    requires sign == [] || sign == [43] || sign == [45]
    requires spaces == SpacesIn(CString(s)) && spaces < |CString(s)|
    requires IsSign(CString(s)[spaces]) <==> sign != []
    requires sign != [] ==> CString(s)[spaces] == sign[0]
    requires spaces + |sign| <= |CString(s)| && CString(s)[spaces + |sign|..] == digits
    requires digits != [] && DigitsIn(digits) == |digits| && digits[..|digits|] == digits
    ensures Strtoull(s)
         == if Number(digits) >= 0x1_0000_0000_0000_0000 then Scan(|CString(s)|, true, 0xFFFF_FFFF_FFFF_FFFF)
            else Scan(|CString(s)|, false, Signed(sign, Number(digits)))
  {
    StrtoullOf(s, spaces, spaces + |sign|, digits);
    if Number(digits) < 0x1_0000_0000_0000_0000 {
      SignedIsCast(Number(digits));
    }
  }

  lemma NumeralScans(s: ByteString, spaces: ByteString, sign: ByteString, digits: ByteString)
    requires Reads(CString(s), spaces, sign, digits)
    ensures s != []
    ensures Strtoull(s)
         == if Number(digits) >= 0x1_0000_0000_0000_0000 then Scan(|CString(s)|, true, 0xFFFF_FFFF_FFFF_FFFF)
            else Scan(|CString(s)|, false, Signed(sign, Number(digits)))
  {
    NumeralParts(CString(s), spaces, sign, digits);
    ScannedAs(s, |spaces|, sign, digits);
  }

  lemma ScanDecides(s: ByteString)
    ensures var scan := Strtoull(s);
            RevisionToUint64(s)
            == if s != [] && !scan.overflow && scan.end == |CString(s)| then scan.value else HashValue(Fnv(s))
  {
  }

  /** A numeral below 2^64 is its value, a negative one modulo 2^64; a larger one is hashed. */
  lemma NumeralsAreRead(s: ByteString, spaces: ByteString, sign: ByteString, digits: ByteString)
    requires Reads(CString(s), spaces, sign, digits)
    ensures RevisionToUint64(s)
         == if Number(digits) >= 0x1_0000_0000_0000_0000 then HashValue(Fnv(s)) else Signed(sign, Number(digits))
  {
    NumeralScans(s, spaces, sign, digits);
    ScanDecides(s);
  }

  lemma {:induction false} SpacesAreSpaces(s: ByteString)
    ensures AllSpaces(s[..SpacesIn(s)])
  {
    if s != [] && IsSpace(s[0]) {
      SpacesAreSpaces(s[1..]);
      assert s[..SpacesIn(s)] == [s[0]] + s[1..][..SpacesIn(s[1..])];
    }
  }

  lemma PartsAreNumeral(text: ByteString, spaces: nat, start: nat)
    requires spaces <= start <= |text| && AllSpaces(text[..spaces]) && AllDigits(text[start..])
    requires start == spaces || (start == spaces + 1 && IsSign(text[spaces]))
    ensures IsNumeral(text)
  {
    var sign := text[spaces..start];
    assert sign == [] || sign == [text[spaces]];
    assert text == text[..spaces] + sign + text[start..];
    assert Reads(text, text[..spaces], sign, text[start..]);
  }

  function StartOf(text: ByteString): (start: nat)
    ensures SpacesIn(text) <= start <= |text|
  {
    if SpacesIn(text) < |text| && IsSign(text[SpacesIn(text)]) then SpacesIn(text) + 1 else SpacesIn(text)
  }

  lemma ScanEnds(s: ByteString)
    ensures var digits := DigitsIn(CString(s)[StartOf(CString(s))..]);
            Strtoull(s) == Scan(0, false, 0) || (digits > 0 && Strtoull(s).end == StartOf(CString(s)) + digits)
  {
  }

  lemma AllReadIsNumeral(text: ByteString)
    requires StartOf(text) + DigitsIn(text[StartOf(text)..]) == |text| && DigitsIn(text[StartOf(text)..]) > 0
    ensures IsNumeral(text)
  {
    SpacesAreSpaces(text);
    PartsAreNumeral(text, SpacesIn(text), StartOf(text));
  }

  lemma OthersScan(s: ByteString)
    requires !IsNumeral(CString(s))
    ensures Strtoull(s) == Scan(0, false, 0) || Strtoull(s).end < |CString(s)|
  {
    ScanEnds(s);
    if Strtoull(s) != Scan(0, false, 0) && Strtoull(s).end == |CString(s)| {
      AllReadIsNumeral(CString(s));
    }
  }

  /** Every other text is hashed, but one that begins with a NUL is 0. */
  lemma OthersAreHashed(s: ByteString)
    requires !IsNumeral(CString(s))
    ensures RevisionToUint64(s) == if s != [] && s[0] == 0 then 0 else HashValue(Fnv(s))
  {
    OthersScan(s);
    ScanDecides(s);
  }

  /** The hash goes through the text byte by byte: it mixes in a byte, then multiplies. */
  lemma HashGoesThrough(s: ByteString, b: Byte)
    ensures Fnv(s + [b]) == FnvStep(Fnv(s), b)
  {
    assert (s + [b])[..|s|] == s;
  }

  lemma HashMixes(hash: bv64, b: Byte)
    ensures FnvStep(hash, b) == (hash ^ (b as bv64)) * FNV_PRIME
  {
  }

  lemma HashBegins()
    ensures Fnv([]) == 1469598103934665603 && FNV_PRIME == 1099511628211
  {
  }
}
