/** The bounded table of requests in flight, under any interleaving of its locked sections. */
module InflightTable {
  import opened TransportMessages

  datatype Entry = Entry(deadlineMs: int, number: nat)

  type Entries = map<Id, Entry>

  function Evicted(t: Entries, now: int): Entries {
    map id | id in t && t[id].deadlineMs > now :: t[id]
  }

  /** The table, its counter, and the requests between a reservation and its release. */
  datatype State = State(entries: Entries, number: nat, active: set<Id>)

  const EMPTY: State := State(map[], 0, {})

  predicate Free(s: State, max: nat, id: Id, now: int) {
    id !in Evicted(s.entries, now) && |Evicted(s.entries, now)| < max
  }

  datatype Step =
    | Reserve(id: Id, deadlineMs: int, now: int)   // evict, then insert if there is room
    | Release(id: Id)
    | ClearAll                                     // the end of stop

  /** Concurrent requests have distinct ids: one in flight is not begun again. */
  predicate Enabled(s: State, step: Step) {
    match step
    case Reserve(id, _, _) => id !in s.active
    case Release(id) => id in s.active
    case ClearAll => true
  }

  function Perform(s: State, max: nat, step: Step): State {
    match step
    case Reserve(id, deadline, now) =>
      var kept := Evicted(s.entries, now);
      if Free(s, max, id, now) then State(kept[id := Entry(deadline, s.number + 1)], s.number + 1, s.active + {id})
      else s.(entries := kept)
    case Release(id) => s.(entries := s.entries - {id}, active := s.active - {id})
    case ClearAll => s.(entries := map[])
  }

  function Run(s: State, max: nat, steps: seq<Step>): State
    decreases |steps|
  {
    if steps == [] then s else
    Run(if Enabled(s, steps[0]) then Perform(s, max, steps[0]) else s, max, steps[1..])
  }

  ghost predicate Inv(s: State, max: nat) {
    s.entries.Keys <= s.active && |s.entries| <= max
  }

  lemma SmallerTable(a: Entries, b: Entries)
    requires a.Keys <= b.Keys
    ensures |a| <= |b|
  {
    SubsetSize(a.Keys, b.Keys);
  }

  lemma {:induction false} SubsetSize(a: set<Id>, b: set<Id>)
    requires a <= b
    ensures |a| <= |b|
  {
    if a != {} {
      var x :| x in a;
      SubsetSize(a - {x}, b - {x});
    }
  }

  lemma StepKeepsInv(s: State, max: nat, step: Step)
    requires Inv(s, max)
    ensures Inv(Perform(s, max, step), max)
  {
    match step
    case Reserve(id, deadline, now) =>
      SmallerTable(Evicted(s.entries, now), s.entries);
    case Release(id) =>
      SmallerTable(s.entries - {id}, s.entries);
    case ClearAll =>
  }

  lemma {:induction false} RunKeepsInv(s: State, max: nat, steps: seq<Step>)
    requires Inv(s, max)
    ensures Inv(Run(s, max, steps), max)
    decreases |steps|
  {
    if steps != [] {
      if Enabled(s, steps[0]) {
        StepKeepsInv(s, max, steps[0]);
      }
      RunKeepsInv(if Enabled(s, steps[0]) then Perform(s, max, steps[0]) else s, max, steps[1..]);
    }
  }

  /** Under any interleaving the table never exceeds its bound, holds only requests in flight,
      and is empty when none is. */
  lemma TableIsBounded(max: nat, steps: seq<Step>)
    ensures var s := Run(EMPTY, max, steps);
            && |s.entries| <= max
            && s.entries.Keys <= s.active
            && (s.active == {} ==> s.entries == map[])
  {
    RunKeepsInv(EMPTY, max, steps);
  }

  // -------------------------------------------------- requests in flight against the bound

  /** Nothing in the table has expired when a request is begun, and nothing is cleared. */
  ghost predicate Timely(s: State, max: nat, steps: seq<Step>)
    decreases |steps|
  {
    steps == [] ||
    (&& (steps[0].Reserve? ==> Evicted(s.entries, steps[0].now) == s.entries)
     && !steps[0].ClearAll?
     && Timely(if Enabled(s, steps[0]) then Perform(s, max, steps[0]) else s, max, steps[1..]))
  }

  lemma {:induction false} TimelyRunsMatch(s: State, max: nat, steps: seq<Step>)
    requires Inv(s, max) && s.entries.Keys == s.active && Timely(s, max, steps)
    ensures Run(s, max, steps).entries.Keys == Run(s, max, steps).active
    ensures |Run(s, max, steps).active| <= max
    decreases |steps|
  {
    if steps == [] {
      assert |s.entries.Keys| == |s.entries|;
    } else {
      var next := if Enabled(s, steps[0]) then Perform(s, max, steps[0]) else s;
      StepKeepsInv(s, max, steps[0]);
      TimelyRunsMatch(next, max, steps[1..]);
    }
  }

  /** A request in flight has no entry any more, or one that this reservation will evict. */
  predicate HasLapsed(s: State, now: int) {
    exists a :: a in s.active && (a !in s.entries || s.entries[a].deadlineMs <= now)
  }

  /** The reservation that takes the requests in flight beyond the bound. */
  predicate Overbooks(s: State, max: nat, step: Step) {
    step.Reserve? && max > 0 && |s.active| == max && HasLapsed(s, step.now)
  }

  lemma {:induction false} ProperSubsetSize(a: set<Id>, b: set<Id>, x: Id)
    requires a <= b && x in b && x !in a
    ensures |a| < |b|
  {
    SubsetSize(a, b - {x});
  }

  /** The requests in flight exceed the bound after a step if and only if it reserves for one
      more while as many as allowed are in flight and one of those has lapsed. */
  lemma StepExceedsIff(s: State, max: nat, step: Step)
    requires Inv(s, max) && |s.active| <= max && Enabled(s, step)
    ensures |Perform(s, max, step).active| > max <==> Overbooks(s, max, step)
  {
    match step
    case Reserve(id, deadline, now) =>
      var kept := Evicted(s.entries, now);
      assert kept.Keys <= s.active && |kept.Keys| == |kept|;
      SubsetSize(kept.Keys, s.active);
      if HasLapsed(s, now) {
        var a :| a in s.active && (a !in s.entries || s.entries[a].deadlineMs <= now);
        ProperSubsetSize(kept.Keys, s.active, a);
      } else {
        assert kept.Keys == s.active;
      }
    case Release(id) =>
      SubsetSize(s.active - {id}, s.active);
    case ClearAll =>
  }

  /** While the table lists exactly the requests in flight, that is when the table is full and
      one of its entries has expired. */
  lemma ReserveExceedsIff(s: State, max: nat, id: Id, deadline: int, now: int)
    requires Inv(s, max) && s.entries.Keys == s.active && id !in s.active
    ensures |Perform(s, max, Reserve(id, deadline, now)).active| > max
            <==> |s.entries| == max > 0 && exists a :: a in s.entries && s.entries[a].deadlineMs <= now
  {
    assert |s.entries.Keys| == |s.entries|;
    StepExceedsIff(s, max, Reserve(id, deadline, now));
  }

  function Next(s: State, max: nat, step: Step): State {
    if Enabled(s, step) then Perform(s, max, step) else s
  }

  /** At no point of the run are more requests in flight than allowed. */
  predicate StaysWithin(s: State, max: nat, steps: seq<Step>)
    decreases |steps|
  {
    |s.active| <= max && (steps == [] || StaysWithin(Next(s, max, steps[0]), max, steps[1..]))
  }

  predicate NeverOverbooks(s: State, max: nat, steps: seq<Step>)
    decreases |steps|
  {
    steps == [] ||
    (&& (Enabled(s, steps[0]) ==> !Overbooks(s, max, steps[0]))
     && NeverOverbooks(Next(s, max, steps[0]), max, steps[1..]))
  }

  lemma {:induction false} RunStaysWithinIff(s: State, max: nat, steps: seq<Step>)
    requires Inv(s, max) && |s.active| <= max
    ensures StaysWithin(s, max, steps) <==> NeverOverbooks(s, max, steps)
    decreases |steps|
  {
    if steps != [] {
      var next := Next(s, max, steps[0]);
      if Enabled(s, steps[0]) {
        StepExceedsIff(s, max, steps[0]);
        StepKeepsInv(s, max, steps[0]);
      }
      if |next.active| <= max {
        RunStaysWithinIff(next, max, steps[1..]);
      }
    }
  }

  /** Under any interleaving the requests in flight stay within the bound if and only if no
      reservation is made while the bound is reached and one of them has lapsed. */
  lemma InFlightIsBoundedIff(max: nat, steps: seq<Step>)
    ensures StaysWithin(EMPTY, max, steps) <==> NeverOverbooks(EMPTY, max, steps)
  {
    RunStaysWithinIff(EMPTY, max, steps);
  }

  /** A run that goes beyond the bound. */
  lemma ExpiryLetsMoreIn()
    ensures var steps := [Reserve("a", 1, 0), Reserve("b", 9, 1)];
            |Run(EMPTY, 1, steps).active| == 2 && !Timely(EMPTY, 1, steps)
  {
    var s1 := Perform(EMPTY, 1, Reserve("a", 1, 0));
    assert Evicted(EMPTY.entries, 0) == map[];
    assert s1 == State(map["a" := Entry(1, 1)], 1, {"a"});
    assert Evicted(s1.entries, 1) == map[];
    var s2 := Perform(s1, 1, Reserve("b", 9, 1));
    assert s2.active == {"a", "b"};
    assert "a" in s1.entries && "a" !in Evicted(s1.entries, 1);
    var steps := [Reserve("a", 1, 0), Reserve("b", 9, 1)];
    assert steps[1..] == [Reserve("b", 9, 1)] && steps[1..][1..] == [];
    assert Run(s2, 1, []) == s2;
    assert Run(s1, 1, steps[1..]) == Run(s2, 1, steps[1..][1..]);
  }

  // ------------------------------------------------------------------------- a reused id

  /** Every entry carries a number that has been handed out. */
  ghost predicate Numbered(s: State) {
    forall id :: id in s.entries ==> s.entries[id].number <= s.number
  }

  lemma StepKeepsNumbered(s: State, max: nat, step: Step)
    requires Numbered(s)
    ensures Numbered(Perform(s, max, step))
  {
  }

  lemma {:induction false} RunKeepsNumbered(s: State, max: nat, steps: seq<Step>)
    requires Numbered(s)
    ensures Numbered(Run(s, max, steps))
    decreases |steps|
  {
    if steps != [] {
      StepKeepsNumbered(s, max, steps[0]);
      RunKeepsNumbered(Next(s, max, steps[0]), max, steps[1..]);
    }
  }

  lemma TakenOver(s: State, max: nat, id: Id, deadline: int, now: int)
    requires Inv(s, max) && Numbered(s) && id in s.entries
    ensures Free(s, max, id, now) <==> s.entries[id].deadlineMs <= now
    ensures var again := Perform(s, max, Reserve(id, deadline, now));
            && (!Free(s, max, id, now) ==> id in again.entries && again.entries[id] == s.entries[id])
            && (Free(s, max, id, now) ==>
                  && id in again.entries && again.entries[id].number != s.entries[id].number
                  && id !in Perform(again, max, Release(id)).entries)
  {
    if s.entries[id].deadlineMs <= now {
      var kept := Evicted(s.entries, now);
      assert kept.Keys <= s.entries.Keys && |kept.Keys| == |kept| && |s.entries.Keys| == |s.entries|;
      ProperSubsetSize(kept.Keys, s.entries.Keys, id);
    }
  }

  /** After any interleaving, an id that is still in the table is reserved again if and only if
      its deadline has passed; the entry is then the second request's, and the first one's
      release erases it. */
  lemma ReusedIdIsTakenOver(max: nat, steps: seq<Step>, id: Id, deadline: int, now: int)
    requires id in Run(EMPTY, max, steps).entries
    ensures var s := Run(EMPTY, max, steps);
            var again := Perform(s, max, Reserve(id, deadline, now));
            && (Free(s, max, id, now) <==> s.entries[id].deadlineMs <= now)
            && (!Free(s, max, id, now) ==> id in again.entries && again.entries[id] == s.entries[id])
            && (Free(s, max, id, now) ==>
                  && id in again.entries && again.entries[id].number != s.entries[id].number
                  && id !in Perform(again, max, Release(id)).entries)
  {
    RunKeepsInv(EMPTY, max, steps);
    RunKeepsNumbered(EMPTY, max, steps);
    TakenOver(Run(EMPTY, max, steps), max, id, deadline, now);
  }
}
