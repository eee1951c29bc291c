/** Promises about all moments of a history, decided by what single operations do to them. */
module OrchestratorPromises {
  import opened OrchestratorState
  import opened OrchestratorSpec
  import opened OrchestratorInvariants
  import opened OrchestratorHistory
  import opened OrchestratorBoundaries

  /** What every moment is to be like; what the disk it leaves is to be like for the moments to
      come; and the stops that break it: those after `n` moments of an operation. */
  datatype Promise = Promise(kept: Moment -> bool, ahead: (Disk, Tally) -> bool, breaks: (World, Op, nat) -> bool)

  ghost predicate Keeps(p: Promise, w: World) {
    p.ahead(w.disk, w.tally) && forall i :: 0 <= i < |w.log| ==> p.kept(w.log[i])
  }

  /** Stopped after the first `k` moments, the promise is kept. */
  ghost predicate KeptUpTo(p: Promise, log: seq<Moment>, k: nat)
    requires 0 < k <= |log|
  {
    p.ahead(log[k - 1].disk, log[k - 1].tally) && forall i :: 0 <= i < k ==> p.kept(log[i])
  }

  /** Moment `n` of an operation from a world in which the promise is kept. */
  predicate MomentKeeps(p: Promise, w: World, op: Op, n: nat, m: Moment) {
    p.kept(m) && (p.ahead(m.disk, m.tally) <==> !p.breaks(w, op, n))
  }

  ghost predicate MomentsKeep(p: Promise, w: World, op: Op, v: World) {
    forall i :: |w.log| <= i < |v.log| ==> MomentKeeps(p, w, op, i - |w.log| + 1, v.log[i])
  }

  /** Nothing an operation does mends a promise that is broken. */
  ghost predicate StaysBroken(p: Promise, w: World, v: World) {
    forall k :: |w.log| < k <= |v.log| ==> !KeptUpTo(p, v.log, k)
  }

  /** A stop that breaks the promise falls inside the operation. */
  ghost predicate BreaksInside(p: Promise, w: World, op: Op, v: World) {
    forall n: nat :: p.breaks(w, op, n) ==> 0 < n && |w.log| + n < |v.log|
  }

  /** What an operation from `w` to `v` means for the promise. */
  ghost predicate Decides(p: Promise, w: World, op: Op, v: World) {
    && BreaksInside(p, w, op, v)
    && if p.ahead(w.disk, w.tally) then MomentsKeep(p, w, op, v) else StaysBroken(p, w, v)
  }

  ghost predicate Law(p: Promise) {
    forall w, op :: Inv(w) && Agrees(w) && OpOK(op) ==> Decides(p, w, op, Perform(w, op))
  }

  // -------------------------------------------------------------------------- one action

  lemma PartIff(p: Promise, w: World, op: Op, v: World, k: nat)
    requires Sound(w) && w.log <= v.log && Decides(p, w, op, v) && |w.log| <= k <= |v.log|
    ensures KeptUpTo(p, v.log, k) <==> Keeps(p, w) && !p.breaks(w, op, k - |w.log|)
  {
    var log := v.log;
    assert forall i :: 0 <= i < |w.log| ==> log[i] == w.log[i];
    if k > |w.log| && p.ahead(w.disk, w.tally) {
      assert MomentKeeps(p, w, op, k - |w.log|, log[k - 1]);
      forall i | |w.log| <= i < k
        ensures p.kept(log[i])
      {
        assert MomentKeeps(p, w, op, i - |w.log| + 1, log[i]);
      }
    }
  }

  lemma WholeIff(p: Promise, v: World)
    requires Sound(v)
    ensures KeptUpTo(p, v.log, |v.log|) <==> Keeps(p, v)
  {
  }

  lemma CutIff(p: Promise, v: World, k: nat)
    requires 0 < k <= |v.log|
    ensures KeptUpTo(p, v.log, k) <==> Keeps(p, CutAt(v, k))
  {
    var cut := CutAt(v, k);
    assert |cut.log| == k && forall i :: 0 <= i < k ==> cut.log[i] == v.log[i];
  }

  /** The action is a stop that breaks the promise. */
  predicate Breaks(p: Promise, w: World, a: Action) {
    a.DieIn? && p.breaks(w, a.op, a.moments)
  }

  lemma ActIff(p: Promise, w: World, a: Action)
    requires Inv(w) && Agrees(w) && (a.RestartNow? || OpOK(a.op)) && Law(p)
    ensures Keeps(p, Act(w, a)) <==> Keeps(p, w) && !Breaks(p, w, a)
  {
    match a
    case Do(op) =>
      PerformKeeps(w, op);
      DoneIff(p, w, op, Perform(w, op));
    case DieIn(op, moments) =>
      PerformKeeps(w, op);
      StoppedIff(p, w, op, Perform(w, op), moments);
    case RestartNow =>
  }

  lemma DoneIff(p: Promise, w: World, op: Op, v: World)
    requires Sound(w) && Sound(v) && w.log <= v.log && Decides(p, w, op, v)
    ensures Keeps(p, v) <==> Keeps(p, w)
  {
    PartIff(p, w, op, v, |v.log|);
    WholeIff(p, v);
  }

  lemma StoppedIff(p: Promise, w: World, op: Op, v: World, n: nat)
    requires Sound(w) && w.log <= v.log && Decides(p, w, op, v)
    ensures Keeps(p, Stopped(w, v, n)) <==> Keeps(p, w) && !p.breaks(w, op, n)
  {
    PartIff(p, w, op, v, Kept(w, v, n));
    CutIff(p, v, Kept(w, v, n));
  }

  /** From a world that has kept the promise, a stop leaves what is ahead in order if and only
      if it does not break it. */
  lemma StopIff(p: Promise, w: World, op: Op, n: nat)
    requires Inv(w) && Agrees(w) && OpOK(op) && Law(p) && p.ahead(w.disk, w.tally)
    ensures var v := Act(w, DieIn(op, n)); p.ahead(v.disk, v.tally) <==> !p.breaks(w, op, n)
  {
    PerformKeeps(w, op);
    MomentIff(p, w, op, Perform(w, op), n);
  }

  lemma MomentIff(p: Promise, w: World, op: Op, v: World, n: nat)
    requires Sound(w) && w.log <= v.log && Decides(p, w, op, v) && p.ahead(w.disk, w.tally)
    ensures var k := Kept(w, v, n);
            0 < k <= |v.log| && (p.ahead(v.log[k - 1].disk, v.log[k - 1].tally) <==> !p.breaks(w, op, n))
  {
    var k := Kept(w, v, n);
    if k > |w.log| {
      assert MomentKeeps(p, w, op, k - |w.log|, v.log[k - 1]);
    } else {
      assert v.log[k - 1] == w.log[k - 1];
    }
  }

  // --------------------------------------------------------------------------- histories

  /** No stop of the history breaks the promise. */
  predicate NeverBreaks(p: Promise, w: World, actions: seq<Action>)
    decreases |actions|
  {
    actions == [] || (!Breaks(p, w, actions[0]) && NeverBreaks(p, Act(w, actions[0]), actions[1..]))
  }

  lemma {:induction false} HistoryIff(p: Promise, w: World, actions: seq<Action>)
    requires Inv(w) && Agrees(w) && ActionsOK(actions) && Law(p)
    ensures Keeps(p, History(w, actions)) <==> Keeps(p, w) && NeverBreaks(p, w, actions)
    decreases |actions|
  {
    if actions != [] {
      ActIff(p, w, actions[0]);
      ActAgrees(w, actions[0]);
      HistoryIff(p, Act(w, actions[0]), actions[1..]);
    }
  }

  /** A promise that holds before anything has happened is kept by a history, with stops
      anywhere, if and only if none of the stops breaks it. */
  lemma KeptIff(p: Promise, max: nat, actions: seq<Action>)
    requires ActionsOK(actions) && Law(p) && Keeps(p, First(max))
    ensures Keeps(p, History(First(max), actions)) <==> NeverBreaks(p, First(max), actions)
  {
    FirstIsSound(max);
    FirstIsSteady(max);
    HistoryIff(p, First(max), actions);
  }

  lemma {:induction false} BetweenBreaksNothing(p: Promise, w: World, actions: seq<Action>)
    requires BetweenOnly(actions)
    ensures NeverBreaks(p, w, actions)
    decreases |actions|
  {
    if actions != [] {
      BetweenBreaksNothing(p, Act(w, actions[0]), actions[1..]);
    }
  }
}
