/** The canonical order of an ECU list, told on the texts themselves. */
module EcuListing {
  import opened Wrappers
  import opened Bytes
  import opened EcuOrder

  /** The texts agree before position `i`, and there the first has the smaller byte. */
  predicate SmallerAt(a: ByteString, b: ByteString, i: nat) {
    i < |a| && i < |b| && a[..i] == b[..i] && a[i] < b[i]
  }

  /** A proper prefix of the other, or smaller at the first byte that differs. */
  ghost predicate Precedes(a: ByteString, b: ByteString) {
    || (|a| < |b| && a == b[..|a|])
    || exists i: nat :: SmallerAt(a, b, i)
  }

  lemma PrefixesGrow(a: ByteString, b: ByteString, i: nat)
    requires a != [] && b != [] && a[0] == b[0] && i <= |a[1..]| && i <= |b[1..]|
    ensures a[..i + 1] == b[..i + 1] <==> a[1..][..i] == b[1..][..i]
  {
    assert a[..i + 1] == [a[0]] + a[1..][..i] && b[..i + 1] == [b[0]] + b[1..][..i];
  }

  /** Behind an equal first byte the rest decides. */
  lemma TailsDecide(a: ByteString, b: ByteString)
    requires a != [] && b != [] && a[0] == b[0]
    ensures Precedes(a, b) <==> Precedes(a[1..], b[1..])
  {
    if |a| <= |b| {
      PrefixesGrow(a, b, |a| - 1);
      assert a[..|a|] == a && a[1..][..|a| - 1] == a[1..];
    }
    if i: nat :| SmallerAt(a, b, i) {
      assert i > 0;
      PrefixesGrow(a, b, i - 1);
      assert SmallerAt(a[1..], b[1..], i - 1);
    }
    if i: nat :| SmallerAt(a[1..], b[1..], i) {
      PrefixesGrow(a, b, i);
      assert SmallerAt(a, b, i + 1);
    }
  }

  /** Unless they differ in the first byte, that one is shared. */
  lemma SharedStart(a: ByteString, b: ByteString)
    requires a != [] && b != []
    ensures |a| < |b| && a == b[..|a|] ==> a[0] == b[0]
    ensures forall i: nat :: SmallerAt(a, b, i) && i > 0 ==> a[0] == b[0]
  {
    forall i: nat | SmallerAt(a, b, i) && i > 0
      ensures a[0] == b[0]
    {
      assert a[..i][0] == b[..i][0];
    }
  }

  /** The comparison goes by the first byte that differs, else by length. */
  lemma {:induction false} LessIsPrecedes(a: ByteString, b: ByteString)
    ensures Less(a, b) <==> Precedes(a, b)
    decreases |a|
  {
    if a == [] {
      assert b != [] ==> b[..0] == a;
    } else if b != [] {
      if a[0] == b[0] {
        LessIsPrecedes(a[1..], b[1..]);
        TailsDecide(a, b);
      } else {
        assert a[0] < b[0] ==> SmallerAt(a, b, 0);
        SharedStart(a, b);
      }
    }
  }

  function Text(field: Option<ByteString>): ByteString {
    match field
    case None => []
    case Some(text) => text
  }

  /** By id; under one id by part number; under one of those by software version. A missing
      part number or version counts as an empty text. */
  ghost predicate ListedBefore(a: EcuVersionEntry, b: EcuVersionEntry) {
    || Precedes(a.ecuId, b.ecuId)
    || (a.ecuId == b.ecuId && Precedes(Text(a.partNumber), Text(b.partNumber)))
    || (a.ecuId == b.ecuId && Text(a.partNumber) == Text(b.partNumber) && Precedes(Text(a.swVersion), Text(b.swVersion)))
  }

  predicate SameNames(a: EcuVersionEntry, b: EcuVersionEntry) {
    a.ecuId == b.ecuId && Text(a.partNumber) == Text(b.partNumber) && Text(a.swVersion) == Text(b.swVersion)
  }

  lemma KeysAreTexts(a: EcuVersionEntry, b: EcuVersionEntry)
    ensures KeyLess(KeyOf(a), KeyOf(b)) <==> ListedBefore(a, b)
    ensures KeyOf(a) == KeyOf(b) <==> SameNames(a, b)
  {
    LessIsPrecedes(a.ecuId, b.ecuId);
    LessIsPrecedes(Text(a.partNumber), Text(b.partNumber));
    LessIsPrecedes(Text(a.swVersion), Text(b.swVersion));
  }

  /** The listing is ascending: an earlier entry comes before a later one by its texts, and
      entries with the same texts keep the order they had in the input. */
  lemma ListingAscends(ecus: seq<EcuVersionEntry>, p: nat, q: nat)
    requires p < q < |ecus|
    ensures var order := SortIndices(ecus, |ecus|);
            var a, b := SortedEcus(ecus)[p], SortedEcus(ecus)[q];
            && a == ecus[order[p]] && b == ecus[order[q]]
            && (ListedBefore(a, b) || (SameNames(a, b) && order[p] < order[q]))
  {
    var order := SortIndices(ecus, |ecus|);
    SortIndicesSorts(ecus, |ecus|);
    assert Before(ecus, order[p], order[q]);
    KeysAreTexts(ecus[order[p]], ecus[order[q]]);
  }

  /** The list is refused exactly when two of its entries have the same texts. */
  lemma DuplicatesHaveSameTexts(ecus: seq<EcuVersionEntry>)
    ensures HasDuplicateKeys(ecus)
            <==> exists i, j :: 0 <= i < j < |ecus| && SameNames(ecus[i], ecus[j])
  {
    if HasDuplicateKeys(ecus) {
      var i, j :| 0 <= i < |ecus| && 0 <= j < |ecus| && i != j && KeyOf(ecus[i]) == KeyOf(ecus[j]);
      KeysAreTexts(ecus[i], ecus[j]);
      assert if i < j then SameNames(ecus[i], ecus[j]) else SameNames(ecus[j], ecus[i]);
    }
    if i, j :| 0 <= i < j < |ecus| && SameNames(ecus[i], ecus[j]) {
      KeysAreTexts(ecus[i], ecus[j]);
    }
  }

  // ------------------------------------------------------------ texts of one length, as numbers

  lemma {:induction false} SharedPrefixDecides(a: ByteString, b: ByteString, i: nat)
    requires |a| == |b| && SmallerAt(a, b, i)
    ensures BeValue(a) < BeValue(b)
    decreases |a|
  {
    var n := |a| - 1;
    if i < n {
      assert a[..n][..i] == a[..i] && b[..n][..i] == b[..i];
      SharedPrefixDecides(a[..n], b[..n], i);
    } else {
      assert a[..n] == b[..n];
    }
  }

  /** Ids of one length ascend as the big-endian numbers they spell. */
  lemma EqualLengthsAscendByValue(ecus: seq<EcuVersionEntry>, p: nat, q: nat)
    requires p < q < |ecus|
    ensures var a, b := SortedEcus(ecus)[p].ecuId, SortedEcus(ecus)[q].ecuId;
            |a| == |b| ==> BeValue(a) <= BeValue(b)
  {
    ListingAscends(ecus, p, q);
    var a, b := SortedEcus(ecus)[p].ecuId, SortedEcus(ecus)[q].ecuId;
    if |a| == |b| && a != b {
      var i: nat :| SmallerAt(a, b, i);
      SharedPrefixDecides(a, b, i);
    }
  }
}
