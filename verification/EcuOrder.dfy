/** The entities a fingerprint covers, and the stable order of an ECU list. */
module EcuOrder {
  import opened Wrappers
  import opened Bytes

  datatype VersionSource = UDS_0x22 | SOMEIP_GET_VERSION
  datatype EcuStatus = OK | MISSING | NRC | TIMEOUT | UNREACHABLE | PARSE_ERROR
  datatype CollectionStatus = ALL_OK | PARTIAL | FAILED
  datatype BaselineSource = FACTORY | LAST_OTA | BASELINE_UNKNOWN
  datatype VinSource = PROVISIONED | VIN_UNKNOWN

  datatype EcuVersionEntry = EcuVersionEntry(
    ecuId: ByteString,
    partNumber: Option<ByteString>,
    swVersion: Option<ByteString>,
    hwVersion: Option<ByteString>,
    source: VersionSource,
    status: EcuStatus,
    errorCode: Option<ByteString>)

  datatype VehicleSoftwareSnapshot = VehicleSoftwareSnapshot(
    vin: ByteString,
    vinSource: VinSource,
    baselineId: Option<ByteString>,
    baselineSource: BaselineSource,
    registryVersion: ByteString,
    collectedAt: ByteString,
    overallResult: CollectionStatus,
    snapshotSeq: U64,
    ecuList: seq<EcuVersionEntry>)

  // ---------------------------------------------------------- orders on strings

  /** std::string operator<: lexicographic on unsigned bytes. */
  predicate Less(a: ByteString, b: ByteString) {
    b != [] && (a == [] || a[0] < b[0] || (a[0] == b[0] && Less(a[1..], b[1..])))
  }

  lemma {:induction false} LessIsStrict(a: ByteString, b: ByteString)
    ensures !(Less(a, b) && Less(b, a)) && !Less(a, a)
  {
    if a != [] && b != [] {
      LessIsStrict(a[1..], b[1..]);
    } else if a != [] {
      LessIsStrict(a[1..], []);
    }
  }

  lemma {:induction false} LessIsTotal(a: ByteString, b: ByteString)
    ensures Less(a, b) || a == b || Less(b, a)
  {
    if a != [] && b != [] {
      LessIsTotal(a[1..], b[1..]);
      assert a == [a[0]] + a[1..] && b == [b[0]] + b[1..];
    }
  }

  lemma {:induction false} LessIsTransitive(a: ByteString, b: ByteString, c: ByteString)
    requires Less(a, b) && Less(b, c)
    ensures Less(a, c)
  {
    if a != [] && a[0] == b[0] == c[0] {
      LessIsTransitive(a[1..], b[1..], c[1..]);
    }
  }

  /** The sort key of one entry: a missing part or software version sorts as "". */
  datatype Key = Key(ecu: ByteString, part: ByteString, sw: ByteString)

  function KeyOf(e: EcuVersionEntry): Key {
    Key(e.ecuId, e.partNumber.GetOr([]), e.swVersion.GetOr([]))
  }

  predicate KeyLess(k: Key, l: Key) {
    || Less(k.ecu, l.ecu)
    || (k.ecu == l.ecu && Less(k.part, l.part))
    || (k.ecu == l.ecu && k.part == l.part && Less(k.sw, l.sw))
  }

  lemma KeyLessIsStrictTotal(k: Key, l: Key)
    ensures KeyLess(k, l) || k == l || KeyLess(l, k)
    ensures !(KeyLess(k, l) && KeyLess(l, k)) && !KeyLess(k, k)
  {
    LessIsTotal(k.ecu, l.ecu);
    LessIsTotal(k.part, l.part);
    LessIsTotal(k.sw, l.sw);
    LessIsStrict(k.ecu, l.ecu);
    LessIsStrict(k.part, l.part);
    LessIsStrict(k.sw, l.sw);
  }

  lemma KeyLessIsTransitive(k: Key, l: Key, m: Key)
    requires KeyLess(k, l) && KeyLess(l, m)
    ensures KeyLess(k, m)
  {
    if Less(k.ecu, l.ecu) && Less(l.ecu, m.ecu) {
      LessIsTransitive(k.ecu, l.ecu, m.ecu);
    } else if k.ecu == l.ecu == m.ecu && Less(k.part, l.part) && Less(l.part, m.part) {
      LessIsTransitive(k.part, l.part, m.part);
    } else if k.ecu == l.ecu == m.ecu && k.part == l.part == m.part {
      LessIsTransitive(k.sw, l.sw, m.sw);
    }
  }

  /** The comparator of the sort: the key, then the position in the input. */
  predicate Before(ecus: seq<EcuVersionEntry>, i: nat, j: nat)
    requires i < |ecus| && j < |ecus|
  {
    KeyLess(KeyOf(ecus[i]), KeyOf(ecus[j])) || (KeyOf(ecus[i]) == KeyOf(ecus[j]) && i < j)
  }

  lemma BeforeIsStrictTotal(ecus: seq<EcuVersionEntry>, i: nat, j: nat)
    requires i < |ecus| && j < |ecus|
    ensures i != j ==> Before(ecus, i, j) || Before(ecus, j, i)
    ensures !(Before(ecus, i, j) && Before(ecus, j, i))
  {
    KeyLessIsStrictTotal(KeyOf(ecus[i]), KeyOf(ecus[j]));
  }

  lemma BeforeIsTransitive(ecus: seq<EcuVersionEntry>, i: nat, j: nat, k: nat)
    requires i < |ecus| && j < |ecus| && k < |ecus|
    requires Before(ecus, i, j) && Before(ecus, j, k)
    ensures Before(ecus, i, k)
  {
    if KeyLess(KeyOf(ecus[i]), KeyOf(ecus[j])) && KeyLess(KeyOf(ecus[j]), KeyOf(ecus[k])) {
      KeyLessIsTransitive(KeyOf(ecus[i]), KeyOf(ecus[j]), KeyOf(ecus[k]));
    }
  }

  // ------------------------------------------------------------- sorted indices

  ghost predicate Indices(ecus: seq<EcuVersionEntry>, order: seq<nat>) {
    forall p :: 0 <= p < |order| ==> order[p] < |ecus|
  }

  ghost predicate Sorted(ecus: seq<EcuVersionEntry>, order: seq<nat>)
    requires Indices(ecus, order)
  {
    forall p, q :: 0 <= p < q < |order| ==> Before(ecus, order[p], order[q])
  }

  /** `order` lists each position below n exactly once. */
  ghost predicate IsPermutation(order: seq<nat>, n: nat) {
    && |order| == n
    && (forall p :: 0 <= p < n ==> order[p] < n)
    && (forall p, q :: 0 <= p < q < n ==> order[p] != order[q])
    && (forall i :: 0 <= i < n ==> i in order)
  }

  function Insert(ecus: seq<EcuVersionEntry>, order: seq<nat>, i: nat): (r: seq<nat>)
    requires i < |ecus| && Indices(ecus, order)
    ensures |r| == |order| + 1 && Indices(ecus, r)
    ensures forall x :: x in r <==> x == i || x in order
  {
    if order == [] || Before(ecus, i, order[0]) then [i] + order
    else [order[0]] + Insert(ecus, order[1..], i)
  }

  lemma {:induction false} InsertSorts(ecus: seq<EcuVersionEntry>, order: seq<nat>, i: nat)
    requires i < |ecus| && Indices(ecus, order) && Sorted(ecus, order) && i !in order
    ensures Sorted(ecus, Insert(ecus, order, i))
  {
    if order == [] {
    } else if Before(ecus, i, order[0]) {
      forall q | 0 <= q < |order| ensures Before(ecus, i, order[q]) {
        if q > 0 {
          BeforeIsTransitive(ecus, i, order[0], order[q]);
        }
      }
      PrependSorts(ecus, i, order);
    } else {
      InsertSorts(ecus, order[1..], i);
      BeforeIsStrictTotal(ecus, i, order[0]);
      var tail := Insert(ecus, order[1..], i);
      forall q | 0 <= q < |tail| ensures Before(ecus, order[0], tail[q]) {
        assert tail[q] in tail;
      }
      PrependSorts(ecus, order[0], tail);
    }
  }

  lemma PrependSorts(ecus: seq<EcuVersionEntry>, i: nat, order: seq<nat>)
    requires i < |ecus| && Indices(ecus, order) && Sorted(ecus, order)
    requires forall q :: 0 <= q < |order| ==> Before(ecus, i, order[q])
    ensures Indices(ecus, [i] + order) && Sorted(ecus, [i] + order)
  {
    var r := [i] + order;
    forall p, q | 0 <= p < q < |r| ensures Before(ecus, r[p], r[q]) {
      assert r[q] == order[q - 1];
      if p > 0 {
        assert r[p] == order[p - 1];
      }
    }
  }

  /** The stable order of the first n entries. */
  function SortIndices(ecus: seq<EcuVersionEntry>, n: nat): (order: seq<nat>)
    requires n <= |ecus|
    ensures |order| == n && Indices(ecus, order)
    ensures forall x: nat :: x in order <==> x < n
  {
    if n == 0 then [] else Insert(ecus, SortIndices(ecus, n - 1), n - 1)
  }

  lemma {:induction false} SortIndicesSorts(ecus: seq<EcuVersionEntry>, n: nat)
    requires n <= |ecus|
    ensures Sorted(ecus, SortIndices(ecus, n))
    ensures IsPermutation(SortIndices(ecus, n), n)
  {
    if n > 0 {
      SortIndicesSorts(ecus, n - 1);
      InsertSorts(ecus, SortIndices(ecus, n - 1), n - 1);
    }
    var order := SortIndices(ecus, n);
    forall p, q | 0 <= p < q < n ensures order[p] != order[q] {
      BeforeIsStrictTotal(ecus, order[p], order[q]);
    }
    forall p | 0 <= p < n ensures order[p] < n {
      assert order[p] in order;
    }
  }

  // ----------------------------------------------------- duplicates and the order

  ghost predicate HasDuplicateKeys(ecus: seq<EcuVersionEntry>) {
    exists i, j :: 0 <= i < |ecus| && 0 <= j < |ecus| && i != j && KeyOf(ecus[i]) == KeyOf(ecus[j])
  }

  function Arrange(ecus: seq<EcuVersionEntry>, order: seq<nat>): (r: seq<EcuVersionEntry>)
    requires Indices(ecus, order)
    ensures |r| == |order|
  {
    seq(|order|, p requires 0 <= p < |order| => ecus[order[p]])
  }

  ghost predicate StrictlyIncreasing(ecus: seq<EcuVersionEntry>) {
    forall p, q :: 0 <= p < q < |ecus| ==> KeyLess(KeyOf(ecus[p]), KeyOf(ecus[q]))
  }

  /** The entries in canonical order. */
  function SortedEcus(ecus: seq<EcuVersionEntry>): seq<EcuVersionEntry> {
    Arrange(ecus, SortIndices(ecus, |ecus|))
  }

  /** Looking at neighbours only finds every duplicate, however far apart in the input. */
  lemma AdjacentCheckIsComplete(ecus: seq<EcuVersionEntry>)
    ensures HasDuplicateKeys(ecus) <==>
            exists p :: 0 < p < |ecus| && KeyOf(SortedEcus(ecus)[p - 1]) == KeyOf(SortedEcus(ecus)[p])
    ensures !HasDuplicateKeys(ecus) ==> StrictlyIncreasing(SortedEcus(ecus))
  {
    var sorted := SortedEcus(ecus);
    if HasDuplicateKeys(ecus) {
      var i: nat, j: nat :| i < |ecus| && j < |ecus| && i != j && KeyOf(ecus[i]) == KeyOf(ecus[j]);
      var p := DuplicateHasNeighbour(ecus, i, j);
      assert KeyOf(sorted[p - 1]) == KeyOf(sorted[p]);
    } else {
      NoDuplicatesIncrease(ecus);
      forall p | 0 < p < |ecus| ensures KeyOf(sorted[p - 1]) != KeyOf(sorted[p]) {
        KeyLessIsStrictTotal(KeyOf(sorted[p - 1]), KeyOf(sorted[p]));
      }
    }
  }

  lemma DuplicateHasNeighbour(ecus: seq<EcuVersionEntry>, i: nat, j: nat) returns (p: nat)
    requires i < |ecus| && j < |ecus| && i != j && KeyOf(ecus[i]) == KeyOf(ecus[j])
    ensures 0 < p < |ecus| && KeyOf(SortedEcus(ecus)[p - 1]) == KeyOf(SortedEcus(ecus)[p])
  {
    var order := SortIndices(ecus, |ecus|);
    SortIndicesSorts(ecus, |ecus|);
    var x := PositionOf(order, i);
    var y := PositionOf(order, j);
    NeighboursShareKey(ecus, order, if x < y then x else y, if x < y then y else x);
    p := (if x < y then x else y) + 1;
    assert SortedEcus(ecus)[p - 1] == ecus[order[p - 1]] && SortedEcus(ecus)[p] == ecus[order[p]];
  }

  lemma PositionOf(order: seq<nat>, i: nat) returns (p: nat)
    requires i in order
    ensures p < |order| && order[p] == i
  {
    p :| p < |order| && order[p] == i;
  }

  lemma NeighboursShareKey(ecus: seq<EcuVersionEntry>, order: seq<nat>, lo: nat, hi: nat)
    requires Indices(ecus, order) && Sorted(ecus, order)
    requires lo < hi < |order| && KeyOf(ecus[order[lo]]) == KeyOf(ecus[order[hi]])
    ensures KeyOf(ecus[order[lo]]) == KeyOf(ecus[order[lo + 1]])
  {
    assert Before(ecus, order[lo], order[lo + 1]);
    if lo + 1 < hi {
      assert Before(ecus, order[lo + 1], order[hi]);
    }
    KeyLessIsStrictTotal(KeyOf(ecus[order[lo]]), KeyOf(ecus[order[lo + 1]]));
  }

  lemma NoDuplicatesIncrease(ecus: seq<EcuVersionEntry>)
    requires !HasDuplicateKeys(ecus)
    ensures StrictlyIncreasing(SortedEcus(ecus))
  {
    var order := SortIndices(ecus, |ecus|);
    SortIndicesSorts(ecus, |ecus|);
    forall p, q | 0 <= p < q < |order|
      ensures KeyLess(KeyOf(ecus[order[p]]), KeyOf(ecus[order[q]]))
    {
      assert Before(ecus, order[p], order[q]) && order[p] != order[q];
    }
  }

  lemma SortedKeepsEntries(ecus: seq<EcuVersionEntry>)
    ensures forall e :: e in SortedEcus(ecus) <==> e in ecus
  {
    var order := SortIndices(ecus, |ecus|);
    forall e | e in ecus ensures e in SortedEcus(ecus) {
      var i :| 0 <= i < |ecus| && ecus[i] == e;
      var p := PositionOf(order, i);
      assert SortedEcus(ecus)[p] == e;
    }
  }

  /** A set of entries has one strictly increasing listing. */
  lemma {:induction false} IncreasingListingIsUnique(a: seq<EcuVersionEntry>, b: seq<EcuVersionEntry>)
    requires StrictlyIncreasing(a) && StrictlyIncreasing(b)
    requires forall e :: e in a <==> e in b
    ensures a == b
    decreases |a|
  {
    if a == [] {
      if b != [] {
        HeadIsMember(b);
      }
    } else {
      assert a[0] in b && b != [] && b[0] in a;
      HeadIsLeast(a, b);
      HeadIsLeast(b, a);
      KeyLessIsStrictTotal(KeyOf(a[0]), KeyOf(b[0]));
      forall e | true ensures e in a[1..] <==> e in b[1..] {
        KeyLessIsStrictTotal(KeyOf(a[0]), KeyOf(e));
        assert e in a <==> e == a[0] || e in a[1..];
        assert e in b <==> e == b[0] || e in b[1..];
      }
      IncreasingListingIsUnique(a[1..], b[1..]);
      assert a == [a[0]] + a[1..] && b == [b[0]] + b[1..];
    }
  }

  lemma HeadIsMember(b: seq<EcuVersionEntry>)
    requires b != []
    ensures b[0] in b
  {
  }

  lemma HeadIsLeast(a: seq<EcuVersionEntry>, b: seq<EcuVersionEntry>)
    requires a != [] && b != [] && StrictlyIncreasing(a) && b[0] in a
    ensures a[0] == b[0] || KeyLess(KeyOf(a[0]), KeyOf(b[0]))
  {
    var p :| 0 <= p < |a| && a[p] == b[0];
  }

  /** Reordering the input changes neither the verdict nor the canonical listing. */
  lemma OrderIsPermutationInvariant(ecus: seq<EcuVersionEntry>, shuffle: seq<nat>)
    requires IsPermutation(shuffle, |ecus|)
    ensures Indices(ecus, shuffle)
    ensures HasDuplicateKeys(Arrange(ecus, shuffle)) <==> HasDuplicateKeys(ecus)
    ensures !HasDuplicateKeys(ecus) ==> SortedEcus(Arrange(ecus, shuffle)) == SortedEcus(ecus)
  {
    var other := Arrange(ecus, shuffle);
    if HasDuplicateKeys(other) {
      var i, j :| 0 <= i < |other| && 0 <= j < |other| && i != j && KeyOf(other[i]) == KeyOf(other[j]);
      assert shuffle[i] != shuffle[j] && KeyOf(ecus[shuffle[i]]) == KeyOf(ecus[shuffle[j]]);
    }
    if HasDuplicateKeys(ecus) {
      var i, j :| 0 <= i < |ecus| && 0 <= j < |ecus| && i != j && KeyOf(ecus[i]) == KeyOf(ecus[j]);
      var p := PositionOf(shuffle, i);
      var q := PositionOf(shuffle, j);
      assert p != q && KeyOf(other[p]) == KeyOf(other[q]);
    } else {
      AdjacentCheckIsComplete(ecus);
      AdjacentCheckIsComplete(other);
      SortedKeepsEntries(ecus);
      SortedKeepsEntries(other);
      forall e | e in ecus ensures e in other {
        var i :| 0 <= i < |ecus| && ecus[i] == e;
        var p := PositionOf(shuffle, i);
        assert other[p] == e;
      }
      IncreasingListingIsUnique(SortedEcus(other), SortedEcus(ecus));
    }
  }

  // ---------------------------------------------------------------- the routine

  /** What the library's stable sort does with the comparator, as insertion of each index in turn. */
  method StableSort(ecus: seq<EcuVersionEntry>, order: seq<nat>) returns (sorted: seq<nat>)
    requires |order| == |ecus| && forall i :: 0 <= i < |order| ==> order[i] == i
    ensures sorted == SortIndices(ecus, |ecus|)
  {
    sorted := [];
    for i := 0 to |order|
      invariant sorted == SortIndices(ecus, i)
    {
      sorted := Insert(ecus, sorted, order[i]);
    }
  }

  /** Sorts the positions; fails exactly when two entries share a key. */
  method SortEcuIndices(ecus: seq<EcuVersionEntry>) returns (r: Result<seq<nat>>)
    ensures r.Err? <==> HasDuplicateKeys(ecus)
    ensures r.Ok? ==> r.value == SortIndices(ecus, |ecus|)
  {
    var order: seq<nat> := [];
    for i := 0 to |ecus|
      invariant |order| == i && forall k :: 0 <= k < i ==> order[k] == k
    {
      order := order + [i];
    }
    order := StableSort(ecus, order);
    AdjacentCheckIsComplete(ecus);
    ghost var sorted := SortedEcus(ecus);
    var i := 1;
    while i < |order|
      invariant 1 <= i
      invariant forall p :: 0 < p < i && p < |order| ==> KeyOf(sorted[p - 1]) != KeyOf(sorted[p])
    {
      if KeyOf(ecus[order[i - 1]]) == KeyOf(ecus[order[i]]) {
        assert KeyOf(sorted[i - 1]) == KeyOf(sorted[i]);
        return Err("CGW-FOTA-2001");
      }
      i := i + 1;
    }
    r := Ok(order);
  }
}
