/** What the table of requests in flight says, told from the steps alone. */
module InflightListing {
  import opened TransportMessages
  import opened InflightTable

  /** The state before step `n`. */
  function Before(max: nat, steps: seq<Step>, n: nat): State
    requires n <= |steps|
  {
    Run(EMPTY, max, steps[..n])
  }

  lemma {:induction false} RunOn(s: State, max: nat, steps: seq<Step>, step: Step)
    ensures Run(s, max, steps + [step]) == Next(Run(s, max, steps), max, step)
    decreases |steps|
  {
    var all := steps + [step];
    if steps == [] {
      assert all == [step] && all[1..] == [] && Run(Next(s, max, step), max, []) == Next(s, max, step);
    } else {
      assert all[0] == steps[0] && all[1..] == steps[1..] + [step];
      RunOn(Next(s, max, steps[0]), max, steps[1..], step);
    }
  }

  lemma OneMore(max: nat, steps: seq<Step>, n: nat)
    requires n < |steps|
    ensures Before(max, steps, n + 1) == Next(Before(max, steps, n), max, steps[n])
  {
    assert steps[..n + 1] == steps[..n] + [steps[n]];
    RunOn(EMPTY, max, steps[..n], steps[n]);
  }

  // --------------------------------------------------------------------------- admission

  /** Step `i` begins a request: its id is in flight after it and was not before. */
  predicate Begins(max: nat, steps: seq<Step>, i: nat, id: Id)
    requires i < |steps|
  {
    id !in Before(max, steps, i).active && id in Before(max, steps, i + 1).active
  }

  /** A request is begun exactly by a reservation of its id, while it is not in flight, that
      finds fewer requests listed with a later deadline than are allowed. */
  lemma BeginsIff(max: nat, steps: seq<Step>, i: nat, id: Id)
    requires i < |steps|
    ensures var s := Before(max, steps, i);
            Begins(max, steps, i, id) <==>
              && steps[i].Reserve? && steps[i].id == id && id !in s.active
              && |set a | a in s.entries && s.entries[a].deadlineMs > steps[i].now| < max
  {
    OneMore(max, steps, i);
    RunKeepsInv(EMPTY, max, steps[..i]);
    var s := Before(max, steps, i);
    if steps[i].Reserve? {
      var later := set a | a in s.entries && s.entries[a].deadlineMs > steps[i].now;
      assert Evicted(s.entries, steps[i].now).Keys == later;
      assert |Evicted(s.entries, steps[i].now)| == |Evicted(s.entries, steps[i].now).Keys|;
    }
  }

  // ------------------------------------------------------------------------------ listing

  /** A step that leaves an entry of this id and deadline: no release of it, no clearing, and no
      request begun or refused at or after its deadline. */
  predicate Spares(max: nat, steps: seq<Step>, k: nat, id: Id, deadline: int)
    requires k < |steps|
  {
    match steps[k]
    case Release(other) => other != id
    case ClearAll => false
    case Reserve(other, _, now) => other in Before(max, steps, k).active || now < deadline
  }

  /** Step `i`, before step `n`, reserved the id with this deadline and began it, and every step
      since has spared it. */
  predicate ReservedAt(max: nat, steps: seq<Step>, n: nat, id: Id, deadline: int, i: nat)
    requires n <= |steps|
  {
    && i < n && steps[i].Reserve? && steps[i].id == id && steps[i].deadlineMs == deadline && Begins(max, steps, i, id)
    && forall k :: i < k < n ==> Spares(max, steps, k, id, deadline)
  }

  predicate Lists(s: State, id: Id, deadline: int) {
    id in s.entries && s.entries[id].deadlineMs == deadline
  }

  lemma StepLists(s: State, max: nat, step: Step, id: Id, deadline: int)
    requires Inv(s, max)
    ensures var next := Next(s, max, step);
            Lists(next, id, deadline) <==>
              || (step.Reserve? && step.id == id && step.deadlineMs == deadline && id !in s.active && id in next.active)
              || (Lists(s, id, deadline) &&
                    match step
                    case Release(other) => other != id
                    case ClearAll => false
                    case Reserve(other, _, now) => other in s.active || now < deadline)
  {
  }

  /** After any interleaving the table lists a request with a deadline if and only if it was
      begun with that deadline and has since been neither released nor cleared, nor met by
      another reservation at or after the deadline. */
  lemma {:induction false} TableListsIff(max: nat, steps: seq<Step>, n: nat, id: Id, deadline: int)
    requires n <= |steps|
    ensures Lists(Before(max, steps, n), id, deadline) <==> exists i: nat :: ReservedAt(max, steps, n, id, deadline, i)
    decreases n
  {
    if n == 0 {
      assert Before(max, steps, 0) == EMPTY;
    } else {
      var m := n - 1;
      OneMore(max, steps, m);
      RunKeepsInv(EMPTY, max, steps[..m]);
      StepLists(Before(max, steps, m), max, steps[m], id, deadline);
      TableListsIff(max, steps, m, id, deadline);
      if i: nat :| ReservedAt(max, steps, m, id, deadline, i) {
        if Spares(max, steps, m, id, deadline) {
          assert ReservedAt(max, steps, n, id, deadline, i);
        }
      }
      if i: nat :| ReservedAt(max, steps, n, id, deadline, i) {
        assert i < m ==> ReservedAt(max, steps, m, id, deadline, i);
      }
      if steps[m].Reserve? && steps[m].id == id && steps[m].deadlineMs == deadline && Begins(max, steps, m, id) {
        assert ReservedAt(max, steps, n, id, deadline, m);
      }
    }
  }

  /** A request is in flight if and only if it was begun and has not been released since. */
  predicate Unreleased(max: nat, steps: seq<Step>, n: nat, id: Id, i: nat)
    requires n <= |steps|
  {
    i < n && Begins(max, steps, i, id) && forall k :: i < k < n ==> steps[k] != Release(id)
  }

  lemma {:induction false} InFlightIff(max: nat, steps: seq<Step>, n: nat, id: Id)
    requires n <= |steps|
    ensures id in Before(max, steps, n).active <==> exists i: nat :: Unreleased(max, steps, n, id, i)
    decreases n
  {
    if n == 0 {
      assert Before(max, steps, 0) == EMPTY;
    } else {
      var m := n - 1;
      OneMore(max, steps, m);
      InFlightIff(max, steps, m, id);
      if i: nat :| Unreleased(max, steps, m, id, i) {
        if steps[m] != Release(id) {
          assert Unreleased(max, steps, n, id, i);
        }
      }
      if i: nat :| Unreleased(max, steps, n, id, i) {
        assert i < m ==> Unreleased(max, steps, m, id, i);
      }
      if Begins(max, steps, m, id) {
        assert Unreleased(max, steps, n, id, m);
      }
    }
  }
}
