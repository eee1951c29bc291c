/** Any crash schedule of the migration against one uninterrupted run. */
module MigrationCrashes {
  import opened CrashSchedules
  import opened Wrappers
  import opened Bytes
  import opened CloudState
  import opened RecordText
  import opened DurableStore
  import opened CloudStateStore
  import opened LegacyRecords
  import opened MigrationFormats
  import opened StateMigrationSpec

  // -------------------------------------------------------------------- logical contents

  /** What a stored text means, whenever it was written. */
  datatype Logic = Raw(stored: Stored) | Core(text: ByteString) | Mark(completed: bool, count: U32)

  function LogicOf(c: RecordCodec, f: Formats, key: string, s: Stored): Logic {
    if s.OtherType? then Raw(s)
    else if key != MARKER_KEY then Core(c.core(s.bytes))
    else
      match f.readMarker(s.bytes)
      case Ok(m) => Mark(m.completed, m.migratedKeyCount)
      case Err(_) => Raw(s)
  }

  type Contents = map<string, Logic>

  function Logical(c: RecordCodec, f: Formats, d: Disk): Contents {
    map k | k in d :: LogicOf(c, f, k, d[k])
  }

  function CoreOf(c: RecordCodec, r: Record): Logic {
    Core(c.core(c.write(r, 0)))
  }

  function LWritten(c: RecordCodec, m: Contents, records: seq<Record>): Contents {
    if records == [] then m else
    var n := |records| - 1;
    LWritten(c, m, records[..n])[Key(SlotOf(records[n])) := CoreOf(c, records[n])]
  }

  lemma LogicalPut(c: RecordCodec, f: Formats, d: Disk, r: Record, now: I64)
    requires Lawful(c)
    ensures Logical(c, f, Put(c, d, r, now)) == Logical(c, f, d)[Key(SlotOf(r)) := CoreOf(c, r)]
  {
    MarkerIsNoRecord(SlotOf(r));
    assert c.core(c.write(r, now)) == c.core(c.write(r, 0));
  }

  lemma {:induction false} LogicalWritten(c: RecordCodec, f: Formats, d: Disk, records: seq<Record>, at: nat -> I64)
    requires Lawful(c)
    ensures Logical(c, f, Written(c, d, records, at)) == LWritten(c, Logical(c, f, d), records)
  {
    if records != [] {
      var n := |records| - 1;
      LogicalWritten(c, f, d, records[..n], at);
      LogicalPut(c, f, Written(c, d, records[..n], at), records[n], at(n));
    }
  }

  lemma {:induction false} WritesOverride(c: RecordCodec, m: Contents, records: seq<Record>)
    ensures LWritten(c, m, records) == m + LWritten(c, map[], records)
  {
    if records != [] {
      WritesOverride(c, m, records[..|records| - 1]);
    }
  }

  lemma {:induction false} PrefixWritesFewer(c: RecordCodec, records: seq<Record>, n: nat)
    requires n <= |records|
    ensures LWritten(c, map[], records[..n]).Keys <= LWritten(c, map[], records).Keys
  {
    if n == |records| {
      assert records[..n] == records;
    } else {
      var last := |records| - 1;
      PrefixWritesFewer(c, records[..last], n);
      assert records[..last][..n] == records[..n];
    }
  }

  /** Writing part of a plan and then all of it is writing all of it. */
  lemma RewritingAbsorbs(c: RecordCodec, m: Contents, records: seq<Record>, n: nat)
    requires n <= |records|
    ensures LWritten(c, LWritten(c, m, records[..n]), records) == LWritten(c, m, records)
  {
    WritesOverride(c, m, records[..n]);
    WritesOverride(c, m, records);
    WritesOverride(c, LWritten(c, m, records[..n]), records);
    PrefixWritesFewer(c, records, n);
  }

  lemma LogicalMarked(c: RecordCodec, f: Formats, d: Disk, records: seq<Record>, clock: Clock)
    requires MarkersReadBack(f)
    ensures Logical(c, f, Marked(f, d, records, clock)) == Logical(c, f, d)[MARKER_KEY := Mark(true, ToU32(|records|))]
    ensures MarkerDone(f, Held(Marked(f, d, records, clock), MARKER_KEY)) == Ok(true)
  {
    var m := NewMarker(records, clock);
    assert f.readMarker(f.writeMarker(m, clock.at(|records|))) == Ok(m);
    LogicalUpdate(c, f, d, MARKER_KEY, Text(f.writeMarker(m, clock.at(|records|))));
  }

  lemma LogicalUpdate(c: RecordCodec, f: Formats, d: Disk, key: string, s: Stored)
    ensures Logical(c, f, d[key := s]) == Logical(c, f, d)[key := LogicOf(c, f, key, s)]
  {
  }

  lemma LogicalMinus(c: RecordCodec, f: Formats, d: Disk, names: set<string>)
    ensures Logical(c, f, d - names) == Logical(c, f, d) - names
  {
  }

  lemma LoadsFollowLogic(c: RecordCodec, f: Formats, a: Disk, b: Disk, s: Slot)
    requires Lawful(c) && Logical(c, f, a) == Logical(c, f, b)
    ensures Loaded(c, s, a) == Loaded(c, s, b)
  {
    MarkerIsNoRecord(s);
    var k := Key(s);
    assert k in Logical(c, f, a) <==> k in Logical(c, f, b);
    if k in a {
      assert Logical(c, f, a)[k] == LogicOf(c, f, k, a[k]) && Logical(c, f, b)[k] == LogicOf(c, f, k, b[k]);
    }
  }

  lemma ConsistencyFollowsLogic(c: RecordCodec, f: Formats, a: Disk, b: Disk)
    requires Lawful(c) && Logical(c, f, a) == Logical(c, f, b)
    ensures Consistent(c, a) == Consistent(c, b)
  {
    forall i | 0 <= i < |FIXED_SLOTS|
      ensures Loaded(c, FIXED_SLOTS[i], a) == Loaded(c, FIXED_SLOTS[i], b)
    {
      LoadsFollowLogic(c, f, a, b, FIXED_SLOTS[i]);
    }
  }

  // ----------------------------------------------------------------- the outcome of a run

  function ConvertOutcome(c: RecordCodec, m: Contents, p: Planned, consistent: bool): (bool, Contents) {
    var w := LWritten(c, m, p.records);
    if p.error.Some? || !consistent then (false, w)
    else (true, w[MARKER_KEY := Mark(true, ToU32(|p.records|))] - Names(OLD_KEYS))
  }

  predicate ConsistentAfter(c: RecordCodec, d: Disk, p: Planned) {
    Consistent(c, Written(c, d, p.records, i => 0))
  }

  /** All there is to write, when no read fails. */
  function Whole(f: Formats, d: Disk): Planned {
    Plan(f, SnapshotOf(d), NO_FAULTS.move)
  }

  /** Whether one undisturbed run returns, and what it leaves, whatever the time. */
  function Outcome(c: RecordCodec, f: Formats, d: Disk): (bool, Contents) {
    if !AnyOld(d) then (true, Logical(c, f, d)) else
    match MarkerDone(f, Held(d, MARKER_KEY))
    case Err(_) => (false, Logical(c, f, d))
    case Ok(true) => (true, Logical(c, f, d) - Names(OLD_KEYS))
    case Ok(false) =>
      var p := Whole(f, d);
      ConvertOutcome(c, Logical(c, f, d), p, ConsistentAfter(c, d, p))
  }

  lemma {:induction false} CleanTraceIs(d: Disk, keys: seq<OldKey>)
    ensures Last(d, CleanTrace(d, keys)) == d - Names(keys)
    ensures forall i :: 0 <= i < |CleanTrace(d, keys)| ==> IsCleaned(d, CleanTrace(d, keys)[i])
  {
    if keys != [] {
      var n := |keys| - 1;
      CleanTraceIs(d, keys[..n]);
      NamesAreOld(keys);
      assert IsCleanedBy(d, d - Names(keys), Names(keys));
      MinusOneMore(d, Names(keys[..n]), OldName(keys[n]));
    }
  }

  lemma MinusOneMore(d: Disk, names: set<string>, name: string)
    ensures name !in d - names ==> d - (names + {name}) == d - names
  {
  }

  predicate IsCleanedBy(d: Disk, x: Disk, names: set<string>) {
    names <= Names(OLD_KEYS) && x == d - names
  }

  /** Some of the old keys removed, and nothing else changed. */
  ghost predicate IsCleaned(d: Disk, x: Disk) {
    exists names :: IsCleanedBy(d, x, names)
  }

  lemma {:induction false} NamesAre(keys: seq<OldKey>, name: string)
    ensures name in Names(keys) <==> exists k :: k in keys && OldName(k) == name
  {
    if keys != [] {
      var n := |keys| - 1;
      NamesAre(keys[..n], name);
      assert forall k :: k in keys <==> k in keys[..n] || k == keys[n];
    }
  }

  lemma EveryOldName(name: string)
    ensures name in Names(OLD_KEYS) <==> exists k :: OldName(k) == name
  {
    NamesAre(OLD_KEYS, name);
    forall k
      ensures k in OLD_KEYS
    {
      EveryOldKeyIsListed(k);
    }
  }

  lemma NamesAreOld(keys: seq<OldKey>)
    ensures Names(keys) <= Names(OLD_KEYS)
  {
    forall name | name in Names(keys)
      ensures name in Names(OLD_KEYS)
    {
      NamesAre(keys, name);
      EveryOldName(name);
    }
  }

  lemma NothingOldToRemove(d: Disk)
    requires !AnyOld(d)
    ensures d - Names(OLD_KEYS) == d
  {
    forall name | name in d
      ensures name !in Names(OLD_KEYS)
    {
      NamesAre(OLD_KEYS, name);
    }
  }

  lemma MarkerIsNotOld()
    ensures MARKER_KEY !in Names(OLD_KEYS)
  {
    EveryOldName(MARKER_KEY);
    forall k
      ensures OldName(k) != MARKER_KEY
    {
      OldNamesAreApart(k, VehicleTask);
    }
  }

  lemma LastOfTrace(c: RecordCodec, d: Disk, records: seq<Record>, at: nat -> I64)
    ensures Last(d, WriteTrace(c, d, records, at)) == Written(c, d, records, at)
  {
  }

  lemma TraceOneMore(c: RecordCodec, d: Disk, records: seq<Record>, at: nat -> I64, k: nat)
    requires k < |records|
    ensures WriteTrace(c, d, records[..k + 1], at)
         == WriteTrace(c, d, records[..k], at) + [Written(c, d, records[..k + 1], at)]
  {
    assert records[..k + 1][..k] == records[..k];
  }

  lemma InJoin<D>(xs: seq<D>, y: D, i: nat)
    requires i <= |xs|
    ensures (xs + [y])[i] == if i < |xs| then xs[i] else y
  {
  }

  lemma TraceGrows(c: RecordCodec, d: Disk, records: seq<Record>, at: nat -> I64, k: nat, i: nat)
    requires i <= k < |records|
    ensures WriteTrace(c, d, records[..k + 1], at)[i]
         == if i < k then WriteTrace(c, d, records[..k], at)[i] else Written(c, d, records[..k + 1], at)
  {
    TraceOneMore(c, d, records, at, k);
    InJoin(WriteTrace(c, d, records[..k], at), Written(c, d, records[..k + 1], at), i);
  }

  /** Write `i` of the first `n` leaves what writing that many leaves. */
  lemma {:induction false} TraceAt(c: RecordCodec, d: Disk, records: seq<Record>, at: nat -> I64, n: nat, i: nat)
    requires i < n <= |records|
    ensures WriteTrace(c, d, records[..n], at)[i] == Written(c, d, records[..i + 1], at)
    decreases n
  {
    TraceGrows(c, d, records, at, n - 1, i);
    if i < n - 1 {
      TraceAt(c, d, records, at, n - 1, i);
    }
  }

  lemma LastOfAll<D>(d: D, xs: seq<D>, y: D, zs: seq<D>)
    ensures Last(d, xs + [y] + zs) == Last(y, zs)
  {
  }

  lemma MarkedIsLogged(c: RecordCodec, f: Formats, d: Disk, p: Planned, clock: Clock)
    requires Lawful(c) && MarkersReadBack(f) && p.error.None? && Consistent(c, Written(c, d, p.records, clock.at))
    ensures var d2 := Marked(f, Written(c, d, p.records, clock.at), p.records, clock);
            && (true, Logical(c, f, d2) - Names(OLD_KEYS))
               == ConvertOutcome(c, Logical(c, f, d), p, ConsistentAfter(c, d, p))
            && MarkerDone(f, Held(d2, MARKER_KEY)) == Ok(true)
  {
    var d1 := Written(c, d, p.records, clock.at);
    LogicalWritten(c, f, d, p.records, clock.at);
    LogicalWritten(c, f, d, p.records, i => 0);
    ConsistencyFollowsLogic(c, f, d1, Written(c, d, p.records, i => 0));
    LogicalMarked(c, f, d1, p.records, clock);
  }

  lemma AllDurable(p: Planned)
    ensures p.records[..Durable(NO_FAULTS.save, |p.records|)] == p.records
    ensures OLD_KEYS[..Durable(NO_FAULTS.remove, |OLD_KEYS|)] == OLD_KEYS
  {
    assert AllWork(NO_FAULTS.save, |p.records|) && AllWork(NO_FAULTS.remove, |OLD_KEYS|);
  }

  lemma ConvertReaches(c: RecordCodec, f: Formats, d: Disk, p: Planned, clock: Clock)
    requires Lawful(c) && MarkersReadBack(f)
    ensures var r := Convert(c, f, d, p, clock, NO_FAULTS);
            (r.ok, Logical(c, f, Last(d, r.disks))) == ConvertOutcome(c, Logical(c, f, d), p, ConsistentAfter(c, d, p))
  {
    var d1 := Written(c, d, p.records, clock.at);
    AllDurable(p);
    LastOfTrace(c, d, p.records, clock.at);
    var d2 := Marked(f, d1, p.records, clock);
    if p.error.None? && Consistent(c, d1) {
      MarkedIsLogged(c, f, d, p, clock);
      FinishEnds(d2, Works, NO_FAULTS);
      LogicalMinus(c, f, d2, Names(OLD_KEYS));
      LastIsLast(d, d2, WriteTrace(c, d, p.records, clock.at), Finish(d2, Works, NO_FAULTS).disks);
    } else {
      LogicalWritten(c, f, d, p.records, clock.at);
      LogicalWritten(c, f, d, p.records, i => 0);
      ConsistencyFollowsLogic(c, f, d1, Written(c, d, p.records, i => 0));
    }
  }

  lemma {:induction false} DetectWorks(d: Disk, keys: seq<OldKey>)
    ensures Detect(d, keys, NO_FAULTS.detect).Ok?
    decreases |keys|
  {
    if keys != [] {
      DetectWorks(d, keys[1..]);
    }
  }

  /** Every undisturbed run ends as `Outcome` says. */
  lemma RunReachesOutcome(c: RecordCodec, f: Formats, d: Disk, clock: Clock)
    requires Lawful(c) && MarkersReadBack(f)
    ensures var r := Run(c, f, d, clock, NO_FAULTS);
            (r.ok, Logical(c, f, Last(d, r.disks))) == Outcome(c, f, d)
  {
    DetectWorks(d, OLD_KEYS);
    if AnyOld(d) && MarkerDone(f, Held(d, MARKER_KEY)) == Ok(false) {
      ConvertReaches(c, f, d, Whole(f, d), clock);
    } else if AnyOld(d) && MarkerDone(f, Held(d, MARKER_KEY)) == Ok(true) {
      AllDurable(Whole(f, d));
      CleanTraceIs(d, OLD_KEYS);
      LogicalMinus(c, f, d, Names(OLD_KEYS));
    }
  }

  // ----------------------------------------------------- stopping before the marker is durable

  lemma {:induction false} WrittenKeepsKey(c: RecordCodec, d: Disk, records: seq<Record>, at: nat -> I64, key: string)
    requires forall s :: Key(s) != key
    ensures Held(Written(c, d, records, at), key) == Held(d, key)
  {
    if records != [] {
      WrittenKeepsKey(c, d, records[..|records| - 1], at, key);
    }
  }

  lemma WrittenKeepsOldKey(c: RecordCodec, d: Disk, records: seq<Record>, at: nat -> I64, k: OldKey)
    ensures Held(Written(c, d, records, at), OldName(k)) == Held(d, OldName(k))
  {
    forall s
      ensures Key(s) != OldName(k)
    {
      OldNamesAreApart(k, s);
    }
    WrittenKeepsKey(c, d, records, at, OldName(k));
  }

  lemma WrittenKeepsMarker(c: RecordCodec, d: Disk, records: seq<Record>, at: nat -> I64)
    ensures Held(Written(c, d, records, at), MARKER_KEY) == Held(d, MARKER_KEY)
  {
    forall s
      ensures Key(s) != MARKER_KEY
    {
      MarkerIsNoRecord(s);
    }
    WrittenKeepsKey(c, d, records, at, MARKER_KEY);
  }

  ghost predicate SameOld(d: Disk, x: Disk) {
    forall k :: Held(x, OldName(k)) == Held(d, OldName(k))
  }

  lemma SameOldSamePlan(d: Disk, x: Disk)
    requires SameOld(d, x)
    ensures SnapshotOf(x) == SnapshotOf(d) && AnyOld(x) == AnyOld(d)
  {
    forall k
      ensures OldName(k) in x <==> OldName(k) in d
    {
      assert Held(x, OldName(k)) == Held(d, OldName(k));
    }
  }

  lemma PartWrittenContinues(c: RecordCodec, f: Formats, d: Disk, p: Planned, x: Disk, n: nat, at: nat -> I64)
    requires Lawful(c) && n <= |p.records| && x == Written(c, d, p.records[..n], at)
    ensures ConvertOutcome(c, Logical(c, f, x), p, ConsistentAfter(c, x, p))
         == ConvertOutcome(c, Logical(c, f, d), p, ConsistentAfter(c, d, p))
  {
    LogicalWritten(c, f, d, p.records[..n], at);
    RewritingAbsorbs(c, Logical(c, f, d), p.records, n);
    LogicalWritten(c, f, d, p.records, i => 0);
    LogicalWritten(c, f, x, p.records, i => 0);
    ConsistencyFollowsLogic(c, f, Written(c, x, p.records, i => 0), Written(c, d, p.records, i => 0));
  }

  /** What a run can have written before its marker. */
  ghost predicate IsPartWritten(c: RecordCodec, d: Disk, records: seq<Record>, at: nat -> I64, x: Disk) {
    exists n: nat :: n <= |records| && x == Written(c, d, records[..n], at)
  }

  lemma PartWrittenIsWithinWhole(c: RecordCodec, d: Disk, part: seq<Record>, whole: seq<Record>, at: nat -> I64, x: Disk)
    requires part <= whole && IsPartWritten(c, d, part, at, x)
    ensures IsPartWritten(c, d, whole, at, x)
  {
    var n: nat :| n <= |part| && x == Written(c, d, part[..n], at);
    assert part[..n] == whole[..n];
  }

  lemma BeforeMarkerContinues(c: RecordCodec, f: Formats, d: Disk, x: Disk, at: nat -> I64)
    requires Lawful(c) && AnyOld(d) && MarkerDone(f, Held(d, MARKER_KEY)) == Ok(false)
    requires IsPartWritten(c, d, Whole(f, d).records, at, x)
    ensures Outcome(c, f, x) == Outcome(c, f, d)
  {
    var p := Whole(f, d);
    var n: nat :| n <= |p.records| && x == Written(c, d, p.records[..n], at);
    forall k
      ensures Held(x, OldName(k)) == Held(d, OldName(k))
    {
      WrittenKeepsOldKey(c, d, p.records[..n], at, k);
    }
    SameOldSamePlan(d, x);
    WrittenKeepsMarker(c, d, p.records[..n], at);
    PartWrittenContinues(c, f, d, p, x, n, at);
  }

  // ------------------------------------------------------------------------ and afterwards

  lemma MinusTwice(m: Contents, a: set<string>, b: set<string>)
    requires a <= b
    ensures m - a - b == m - b
  {
  }

  lemma MarkedOutcome(c: RecordCodec, f: Formats, x: Disk)
    requires MarkerDone(f, Held(x, MARKER_KEY)) == Ok(true)
    ensures Outcome(c, f, x) == (true, Logical(c, f, x) - Names(OLD_KEYS))
  {
    if !AnyOld(x) {
      NothingOldToRemove(x);
      LogicalMinus(c, f, x, Names(OLD_KEYS));
    }
  }

  /** From a durable marker on, whatever is left of the old keys, only they go. */
  lemma MarkedContinues(c: RecordCodec, f: Formats, d: Disk, x: Disk)
    requires MarkerDone(f, Held(d, MARKER_KEY)) == Ok(true) && IsCleaned(d, x)
    ensures Outcome(c, f, x) == (true, Logical(c, f, d) - Names(OLD_KEYS))
    ensures Held(x, MARKER_KEY) == Held(d, MARKER_KEY)
  {
    var names :| IsCleanedBy(d, x, names);
    MarkerIsNotOld();
    LogicalMinus(c, f, d, names);
    MinusTwice(Logical(c, f, d), names, Names(OLD_KEYS));
    MarkedOutcome(c, f, x);
  }

  // ------------------------------------------------------------------------ main theorems

  /** Reads that fail only cut the plan short. */
  lemma {:induction false} FaultyPlanIsPart(f: Formats, s: Snapshot, steps: seq<Step>, fault: OldKey -> ReadFault)
    ensures var p, whole := PlanOf(f, s, steps, fault), PlanOf(f, s, steps, NO_FAULTS.move);
            p.records <= whole.records && (p.error.None? ==> p == whole)
    decreases |steps|
  {
    if steps != [] {
      FaultyPlanIsPart(f, s, steps[1..], fault);
    }
  }

  lemma TraceIsPartWritten(c: RecordCodec, d: Disk, records: seq<Record>, n: nat, at: nat -> I64, i: nat)
    requires i < n <= |records|
    ensures IsPartWritten(c, d, records, at, WriteTrace(c, d, records[..n], at)[i])
  {
    TraceAt(c, d, records, at, n, i);
  }

  lemma FinishIsCleaned(d2: Disk, fault: SaveFault, x: Faults, i: nat)
    requires i < |Finish(d2, fault, x).disks|
    ensures !fault.NotWritten? && IsCleaned(d2, Finish(d2, fault, x).disks[i])
  {
    if i == 0 {
      assert IsCleanedBy(d2, d2, {});
    } else {
      CleanTraceIs(d2, OLD_KEYS[..Durable(x.remove, |OLD_KEYS|)]);
    }
  }

  /** What the run is at the latest: the marker durable, and perhaps cleaned up. */
  lemma FinishEnds(d2: Disk, fault: SaveFault, x: Faults)
    requires !fault.NotWritten?
    ensures Finish(d2, fault, x).disks != []
    ensures var keys := if fault.Works? then OLD_KEYS[..Durable(x.remove, |OLD_KEYS|)] else [];
            Last(d2, Finish(d2, fault, x).disks) == d2 - Names(keys)
  {
    if fault.Works? {
      var keys := OLD_KEYS[..Durable(x.remove, |OLD_KEYS|)];
      CleanTraceIs(d2, keys);
      LastOfAll(d2, [], d2, CleanTrace(d2, keys));
    } else {
      assert d2 - Names([]) == d2;
    }
  }

  lemma LastIsLast<D>(d: D, e: D, xs: seq<D>, ys: seq<D>)
    requires ys != []
    ensures Last(d, xs + ys) == Last(e, ys)
  {
  }

  /** The writes of a converting run: records, then the marker, then removals. */
  lemma ConvertShape(c: RecordCodec, f: Formats, d: Disk, p: Planned, clock: Clock, x: Faults, i: nat)
    requires i < |Convert(c, f, d, p, clock, x).disks|
    ensures var y := Convert(c, f, d, p, clock, x).disks[i];
            var d2 := Marked(f, Written(c, d, p.records, clock.at), p.records, clock);
            || IsPartWritten(c, d, p.records, clock.at, y)
            || (ReachesMarker(c, d, p, clock, x) && !FaultAt(x.save, |p.records|).NotWritten? && IsCleaned(d2, y))
  {
    var r := Convert(c, f, d, p, clock, x);
    var n := Durable(x.save, |p.records|);
    if i < n {
      TraceIsPartWritten(c, d, p.records, n, clock.at, i);
    } else {
      var d2 := Marked(f, Written(c, d, p.records, clock.at), p.records, clock);
      var done := Finish(d2, FaultAt(x.save, |p.records|), x);
      assert r.disks[i] == done.disks[i - n];
      FinishIsCleaned(d2, FaultAt(x.save, |p.records|), x, i - n);
    }
  }

  lemma ConvertContinues(c: RecordCodec, f: Formats, d: Disk, clock: Clock, x: Faults, i: nat)
    requires Lawful(c) && MarkersReadBack(f) && AnyOld(d) && MarkerDone(f, Held(d, MARKER_KEY)) == Ok(false)
    requires i < |Convert(c, f, d, Plan(f, SnapshotOf(d), x.move), clock, x).disks|
    ensures Outcome(c, f, Convert(c, f, d, Plan(f, SnapshotOf(d), x.move), clock, x).disks[i]) == Outcome(c, f, d)
  {
    var p := Plan(f, SnapshotOf(d), x.move);
    FaultyPlanIsPart(f, SnapshotOf(d), STEPS, x.move);
    ConvertShape(c, f, d, p, clock, x, i);
    var y := Convert(c, f, d, p, clock, x).disks[i];
    if IsPartWritten(c, d, p.records, clock.at, y) {
      PartWrittenIsWithinWhole(c, d, p.records, Whole(f, d).records, clock.at, y);
      BeforeMarkerContinues(c, f, d, y, clock.at);
    } else {
      MarkedIsLogged(c, f, d, p, clock);
      MarkedContinues(c, f, Marked(f, Written(c, d, p.records, clock.at), p.records, clock), y);
    }
  }

  /** No single write of a run, whatever fails in it, changes what the next full run will end
      with. */
  lemma WriteContinues(c: RecordCodec, f: Formats, d: Disk, clock: Clock, x: Faults, i: nat)
    requires Lawful(c) && MarkersReadBack(f) && i < |Run(c, f, d, clock, x).disks|
    ensures Outcome(c, f, Run(c, f, d, clock, x).disks[i]) == Outcome(c, f, d)
  {
    if MarkerDone(f, Held(d, MARKER_KEY)) == Ok(true) {
      CleanTraceIs(d, OLD_KEYS[..Durable(x.remove, |OLD_KEYS|)]);
      MarkedContinues(c, f, d, Run(c, f, d, clock, x).disks[i]);
    } else {
      ConvertContinues(c, f, d, clock, x, i);
    }
  }

  ghost predicate NoOldKeys(d: Disk) {
    forall k :: OldName(k) !in d
  }

  lemma SuccessLeavesNoOldKeys(c: RecordCodec, f: Formats, d: Disk, x: Disk)
    requires Outcome(c, f, d) == (true, Logical(c, f, x))
    ensures NoOldKeys(x)
  {
    forall k
      ensures OldName(k) !in Logical(c, f, x)
    {
      EveryOldName(OldName(k));
      if !AnyOld(d) {
        NothingOldToRemove(d);
      }
    }
    forall k
      ensures OldName(k) !in x
    {
      assert OldName(k) !in Logical(c, f, x);
    }
  }

  /** When a run happens and what the store does to it. */
  datatype Start = Start(clock: Clock, faults: Faults)

  /** Any number of runs cut off at any write or thrown out by any store failure, then one full
      run: it returns or throws as one undisturbed run would, leaves the same logical contents,
      and no old key on success. */
  lemma MigrationIsCrashIndependent(c: RecordCodec, f: Formats, d: Disk, cuts: seq<Cut<Start>>, clock: Clock, when: Clock)
    requires Lawful(c) && MarkersReadBack(f)
    ensures var x := AfterCuts((d, t: Start) => Run(c, f, d, t.clock, t.faults).disks, d, cuts);
            var again, once := Run(c, f, x, clock, NO_FAULTS), Run(c, f, d, when, NO_FAULTS);
            && again.ok == once.ok
            && Logical(c, f, Last(x, again.disks)) == Logical(c, f, Last(d, once.disks))
            && (again.ok ==> NoOldKeys(Last(x, again.disks)))
  {
    var run := (d, t: Start) => Run(c, f, d, t.clock, t.faults).disks;
    var any := (d: Disk) => true;
    var outcome := d => Outcome(c, f, d);
    forall d, t: Start, i | any(d) && 0 <= i < |run(d, t)|
      ensures any(run(d, t)[i]) && outcome(run(d, t)[i]) == outcome(d)
    {
      WriteContinues(c, f, d, t.clock, t.faults, i);
    }
    CutsKeepOutcome(run, any, outcome, d, cuts);
    var x := AfterCuts(run, d, cuts);
    RunReachesOutcome(c, f, x, clock);
    RunReachesOutcome(c, f, d, when);
    if Run(c, f, x, clock, NO_FAULTS).ok {
      SuccessLeavesNoOldKeys(c, f, x, Last(x, Run(c, f, x, clock, NO_FAULTS).disks));
    }
  }

  /** `x` is `d` without some of the old keys: no record has been written. */
  ghost predicate OnlyOldKeysGone(d: Disk, x: Disk) {
    forall key :: Held(x, key) == Held(d, key) || (Held(x, key).None? && key in Names(OLD_KEYS))
  }

  lemma RunOnMarked(c: RecordCodec, f: Formats, d: Disk, clock: Clock, x: Faults, i: nat)
    requires MarkerDone(f, Held(d, MARKER_KEY)) == Ok(true) && i < |Run(c, f, d, clock, x).disks|
    ensures OnlyOldKeysGone(d, Run(c, f, d, clock, x).disks[i])
  {
    var keys := OLD_KEYS[..Durable(x.remove, |OLD_KEYS|)];
    CleanTraceIs(d, keys);
    var y := CleanTrace(d, keys)[i];
    var names :| IsCleanedBy(d, y, names);
  }

  /** Once the completed marker is durable, no later run, however often cut off or failing,
      writes a migrated record: only old keys ever disappear, and the marker stays. */
  lemma MarkerStopsMigration(c: RecordCodec, f: Formats, d: Disk, cuts: seq<Cut<Start>>)
    requires MarkerDone(f, Held(d, MARKER_KEY)) == Ok(true)
    ensures OnlyOldKeysGone(d, AfterCuts((d, t: Start) => Run(c, f, d, t.clock, t.faults).disks, d, cuts))
  {
    var run := (d, t: Start) => Run(c, f, d, t.clock, t.faults).disks;
    MarkerIsNotOld();
    var inv := x => IsMarkedRest(f, d, x);
    forall x, t: Start, i | inv(x) && 0 <= i < |run(x, t)|
      ensures inv(run(x, t)[i])
    {
      RunOnMarked(c, f, x, t.clock, t.faults, i);
    }
    CutsKeepOutcome(run, inv, x => true, d, cuts);
  }

  ghost predicate IsMarkedRest(f: Formats, d: Disk, x: Disk) {
    OnlyOldKeysGone(d, x) && MarkerDone(f, Held(x, MARKER_KEY)) == Ok(true)
  }

  // ------------------------------------------------------------------- runs that throw

  ghost predicate Untouched(d: Disk, x: Disk) {
    SameOld(d, x) && Held(x, MARKER_KEY) == Held(d, MARKER_KEY)
  }

  /** The run writes its marker: everything before has worked, and the save of the marker is
      durable, whether or not it fails then. */
  predicate WritesMarker(c: RecordCodec, f: Formats, d: Disk, clock: Clock, x: Faults) {
    && Detect(d, OLD_KEYS, x.detect) == Ok(true)
    && MarkerRead(f, Held(d, MARKER_KEY), x.marker) == Ok(false)
    && var p := Plan(f, SnapshotOf(d), x.move);
    && ReachesMarker(c, d, p, clock, x)
    && !FaultAt(x.save, |p.records|).NotWritten?
  }

  /** The run finds the marker of an earlier one and removes an old key before it ends. */
  predicate RemovesLeftover(f: Formats, d: Disk, x: Faults) {
    && Detect(d, OLD_KEYS, x.detect) == Ok(true)
    && MarkerRead(f, Held(d, MARKER_KEY), x.marker) == Ok(true)
    && exists k :: k in OLD_KEYS[..Durable(x.remove, |OLD_KEYS|)] && OldName(k) in d
  }

  lemma PartWrittenIsUntouched(c: RecordCodec, d: Disk, records: seq<Record>, at: nat -> I64, x: Disk)
    requires IsPartWritten(c, d, records, at, x)
    ensures Untouched(d, x)
  {
    var n: nat :| n <= |records| && x == Written(c, d, records[..n], at);
    forall k
      ensures Held(x, OldName(k)) == Held(d, OldName(k))
    {
      WrittenKeepsOldKey(c, d, records[..n], at, k);
    }
    WrittenKeepsMarker(c, d, records[..n], at);
  }

  lemma RemovingTouches(d: Disk, keys: seq<OldKey>)
    ensures SameOld(d, d - Names(keys)) <==> !exists k :: k in keys && OldName(k) in d
  {
    var y := d - Names(keys);
    if k :| k in keys && OldName(k) in d {
      NamesAre(keys, OldName(k));
      assert Held(y, OldName(k)) != Held(d, OldName(k));
    } else {
      forall k
        ensures Held(y, OldName(k)) == Held(d, OldName(k))
      {
        NamesAre(keys, OldName(k));
      }
    }
  }

  lemma CleaningTouches(d: Disk, x: Faults)
    ensures var keys := OLD_KEYS[..Durable(x.remove, |OLD_KEYS|)];
            var y := Last(d, Clean(d, x).disks);
            && Held(y, MARKER_KEY) == Held(d, MARKER_KEY)
            && (SameOld(d, y) <==> !exists k :: k in keys && OldName(k) in d)
  {
    var keys := OLD_KEYS[..Durable(x.remove, |OLD_KEYS|)];
    CleanTraceIs(d, keys);
    NamesAreOld(keys);
    MarkerIsNotOld();
    RemovingTouches(d, keys);
  }

  lemma WritesMarkerEnds(c: RecordCodec, f: Formats, d: Disk, clock: Clock, x: Faults)
    requires WritesMarker(c, f, d, clock, x)
    ensures var p := Plan(f, SnapshotOf(d), x.move);
            var d2 := Marked(f, Written(c, d, p.records, clock.at), p.records, clock);
            var keys := if FaultAt(x.save, |p.records|).Works? then OLD_KEYS[..Durable(x.remove, |OLD_KEYS|)] else [];
            && Last(d, Run(c, f, d, clock, x).disks) == d2 - Names(keys)
            && Run(c, f, d, clock, x).ok == (FaultAt(x.save, |p.records|).Works? && AllWork(x.remove, |OLD_KEYS|))
  {
    var p := Plan(f, SnapshotOf(d), x.move);
    var d2 := Marked(f, Written(c, d, p.records, clock.at), p.records, clock);
    FinishEnds(d2, FaultAt(x.save, |p.records|), x);
    LastIsLast(d, d2, WriteTrace(c, d, p.records[..Durable(x.save, |p.records|)], clock.at),
               Finish(d2, FaultAt(x.save, |p.records|), x).disks);
  }

  lemma MarkerChanges(c: RecordCodec, f: Formats, d: Disk, clock: Clock, x: Faults)
    requires MarkersReadBack(f) && WritesMarker(c, f, d, clock, x)
    ensures MarkerDone(f, Held(Last(d, Run(c, f, d, clock, x).disks), MARKER_KEY)) == Ok(true)
  {
    var p := Plan(f, SnapshotOf(d), x.move);
    var m := NewMarker(p.records, clock);
    assert f.readMarker(f.writeMarker(m, clock.at(|p.records|))) == Ok(m);
    WritesMarkerEnds(c, f, d, clock, x);
    NamesAreOld(if FaultAt(x.save, |p.records|).Works? then OLD_KEYS[..Durable(x.remove, |OLD_KEYS|)] else []);
    MarkerIsNotOld();
  }

  /** A run that throws has left every old key and the marker as they were if and only if it
      failed before its marker was durable and had not removed a leftover of an earlier run. */
  lemma ThrowingRunKeepsOldKeys(c: RecordCodec, f: Formats, d: Disk, clock: Clock, x: Faults)
    requires MarkersReadBack(f) && !Run(c, f, d, clock, x).ok
    ensures Untouched(d, Last(d, Run(c, f, d, clock, x).disks))
            <==> !WritesMarker(c, f, d, clock, x) && !RemovesLeftover(f, d, x)
  {
    var disks := Run(c, f, d, clock, x).disks;
    if WritesMarker(c, f, d, clock, x) {
      MarkerChanges(c, f, d, clock, x);
    } else if Detect(d, OLD_KEYS, x.detect) == Ok(true) && MarkerRead(f, Held(d, MARKER_KEY), x.marker) == Ok(true) {
      CleaningTouches(d, x);
    } else if disks != [] {
      EarlyFailureTouchesNothing(c, f, d, clock, x, |disks| - 1);
    }
  }

  /** Before the marker is durable no write of a run touches an old key or the marker. */
  lemma EarlyFailureTouchesNothing(c: RecordCodec, f: Formats, d: Disk, clock: Clock, x: Faults, i: nat)
    requires !WritesMarker(c, f, d, clock, x) && MarkerRead(f, Held(d, MARKER_KEY), x.marker) != Ok(true)
    requires i < |Run(c, f, d, clock, x).disks|
    ensures Untouched(d, Run(c, f, d, clock, x).disks[i])
  {
    var p := Plan(f, SnapshotOf(d), x.move);
    ConvertShape(c, f, d, p, clock, x, i);
    PartWrittenIsUntouched(c, d, p.records, clock.at, Run(c, f, d, clock, x).disks[i]);
  }

  /** A failure of the marker's save after it is durable. */
  function MarkerSaveFails(n: nat): Faults {
    NO_FAULTS.(save := i => if i == n then WrittenThenFailed else Works)
  }

  /** The removal of the last old key fails. */
  function LastRemovalFails(): Faults {
    NO_FAULTS.(remove := i => if i == |OLD_KEYS| - 1 then NotWritten else Works)
  }

  /** On every disk that an undisturbed run converts, a run can throw after its marker: with
      the marker durable when its save fails late, and with all old keys but the last one gone
      when the last removal fails. */
  lemma LateFailuresThrow(c: RecordCodec, f: Formats, d: Disk, clock: Clock)
    requires MarkersReadBack(f) && AnyOld(d) && MarkerDone(f, Held(d, MARKER_KEY)) == Ok(false)
    requires Run(c, f, d, clock, NO_FAULTS).ok
    ensures var late := Run(c, f, d, clock, MarkerSaveFails(|Whole(f, d).records|));
            !late.ok && MarkerDone(f, Held(Last(d, late.disks), MARKER_KEY)) == Ok(true)
    ensures var cleaning := Run(c, f, d, clock, LastRemovalFails());
            && !cleaning.ok && MarkerDone(f, Held(Last(d, cleaning.disks), MARKER_KEY)) == Ok(true)
            && forall i :: 0 <= i < |OLD_KEYS| - 1 ==> OldName(OLD_KEYS[i]) !in Last(d, cleaning.disks)
  {
    DetectWorks(d, OLD_KEYS);
    var n := |Whole(f, d).records|;
    var a, b := MarkerSaveFails(n), LastRemovalFails();
    assert NO_FAULTS.detect == a.detect == b.detect && NO_FAULTS.move == a.move == b.move;
    assert AllWork(a.save, n) && AllWork(b.save, n);
    MarkerChanges(c, f, d, clock, a);
    MarkerChanges(c, f, d, clock, b);
    LastRemovalLeavesOne(c, f, d, clock);
  }

  lemma LastRemovalLeavesOne(c: RecordCodec, f: Formats, d: Disk, clock: Clock)
    requires WritesMarker(c, f, d, clock, LastRemovalFails())
    ensures var r := Run(c, f, d, clock, LastRemovalFails());
            !r.ok && forall i :: 0 <= i < |OLD_KEYS| - 1 ==> OldName(OLD_KEYS[i]) !in Last(d, r.disks)
  {
    var b, last := LastRemovalFails(), |OLD_KEYS| - 1;
    assert AllWork(b.remove, last) && !FaultAt(b.remove, last).Works?;
    assert Durable(b.remove, |OLD_KEYS|) == last;
    WritesMarkerEnds(c, f, d, clock, b);
    forall i | 0 <= i < last
      ensures OldName(OLD_KEYS[i]) in Names(OLD_KEYS[..last])
    {
      assert OLD_KEYS[..last][i] == OLD_KEYS[i];
      NamesAre(OLD_KEYS[..last], OldName(OLD_KEYS[i]));
    }
  }

  // ------------------------------------------------------------- what the new keys then hold

  /** The record that ends up in a slot: the last one planned for it. */
  function LastFor(records: seq<Record>, s: Slot): (r: Option<Record>)
    ensures r.None? <==> forall i :: 0 <= i < |records| ==> SlotOf(records[i]) != s
    ensures r.Some? ==> r.value in records && SlotOf(r.value) == s
  {
    if records == [] then None else
    var n := |records| - 1;
    if SlotOf(records[n]) == s then Some(records[n]) else LastFor(records[..n], s)
  }

  lemma {:induction false} WrittenLoads(c: RecordCodec, d: Disk, records: seq<Record>, at: nat -> I64, s: Slot)
    requires Lawful(c) && forall r :: r in records ==> c.fits(r)
    ensures Loaded(c, s, Written(c, d, records, at))
         == if LastFor(records, s).Some? then Ok(LastFor(records, s)) else Loaded(c, s, d)
  {
    if records != [] {
      var n := |records| - 1;
      WrittenLoads(c, d, records[..n], at, s);
      PutSetsOneSlot(c, Written(c, d, records[..n], at), records[n], at(n), s);
    }
  }

  /** After a first successful run every slot loads the last record planned for it, and a
      slot nothing was planned for loads what it loaded before. */
  lemma MigratedRecordsLoad(c: RecordCodec, f: Formats, d: Disk, clock: Clock, x: Faults, s: Slot)
    requires Lawful(c) && AnyOld(d) && MarkerDone(f, Held(d, MARKER_KEY)) == Ok(false) && Run(c, f, d, clock, x).ok
    requires forall r :: r in Whole(f, d).records ==> c.fits(r)
    ensures var records := Whole(f, d).records;
            Loaded(c, s, Last(d, Run(c, f, d, clock, x).disks))
            == if LastFor(records, s).Some? then Ok(LastFor(records, s)) else Loaded(c, s, d)
  {
    FaultyPlanIsPart(f, SnapshotOf(d), STEPS, x.move);
    ConvertedLoads(c, f, d, Plan(f, SnapshotOf(d), x.move), clock, x, s);
  }

  lemma ConvertedLoads(c: RecordCodec, f: Formats, d: Disk, p: Planned, clock: Clock, x: Faults, s: Slot)
    requires Lawful(c) && Convert(c, f, d, p, clock, x).ok && forall r :: r in p.records ==> c.fits(r)
    ensures Loaded(c, s, Last(d, Convert(c, f, d, p, clock, x).disks))
         == if LastFor(p.records, s).Some? then Ok(LastFor(p.records, s)) else Loaded(c, s, d)
  {
    var d1 := Written(c, d, p.records, clock.at);
    var d2 := Marked(f, d1, p.records, clock);
    WrittenLoads(c, d, p.records, clock.at, s);
    MarkerIsNoRecord(s);
    NamesAreOld(OLD_KEYS[..Durable(x.remove, |OLD_KEYS|)]);
    SlotIsNotOld(s);
    FinishEnds(d2, Works, x);
    LoadedAfterCleaning(c, d1, d2, s, Names(OLD_KEYS[..Durable(x.remove, |OLD_KEYS|)]));
    LastIsLast(d, d2, WriteTrace(c, d, p.records[..Durable(x.save, |p.records|)], clock.at), Finish(d2, Works, x).disks);
  }

  lemma LoadedAfterCleaning(c: RecordCodec, d1: Disk, d2: Disk, s: Slot, names: set<string>)
    requires Held(d2, Key(s)) == Held(d1, Key(s)) && Key(s) !in names
    ensures Loaded(c, s, d2 - names) == Loaded(c, s, d1)
  {
  }

  lemma SlotIsNotOld(s: Slot)
    ensures Key(s) !in Names(OLD_KEYS)
  {
    EveryOldName(Key(s));
    forall k
      ensures OldName(k) != Key(s)
    {
      OldNamesAreApart(k, s);
    }
  }
}
