/** Controls across processes: which stored ones are applied, and whose acknowledgement numbers
    repeat. */
module OrchestratorControls {
  import opened OrchestratorState
  import opened OrchestratorSpec
  import opened OrchestratorInvariants
  import opened OrchestratorHistory
  import opened OrchestratorBoundaries
  import opened OrchestratorPromises
  import opened OrchestratorSessions

  predicate AppliedIfStored(revision: nat, d: Disk, t: Tally) {
    revision in d.controls ==> revision in t.applied
  }

  /** Stopped after `n` moments, the record of a new control is stored and it is not applied. */
  predicate StopsBeforeApply(revision: nat, w: World, op: Op, n: nat) {
    op.ControlOp? && op.control.revision == revision && revision !in w.disk.controls && n == 1
  }

  /** Once stored, this revision has been applied. */
  function Applies(revision: nat): Promise {
    Promise(m => true, (d, t) => AppliedIfStored(revision, d, t), (w, op, n: nat) => StopsBeforeApply(revision, w, op, n))
  }

  /** Moment `n` of a new control: stored; applied; and if it was, stored again; acknowledged. */
  predicate IsControlMoment(w: World, c: Control, n: nat, m: Moment) {
    && m.disk.controls.Keys == w.disk.controls.Keys + {c.revision}
    && m.tally.applied == w.tally.applied + if n >= 2 then {c.revision} else {}
  }

  lemma ControlMoments(w: World, c: Control, i: nat)
    requires |w.log| <= i < |ApplyControl(w, c).log|
    ensures c.revision !in w.disk.controls && |w.log| + 2 <= |ApplyControl(w, c).log|
    ensures IsControlMoment(w, c, i - |w.log| + 1, ApplyControl(w, c).log[i])
  {
    var w1 := Receive(w, c);
    var w2 := Say(w1, ApplyCalled(c.revision));
    if i == |w.log| {
      assert ApplyControl(w, c).log[i] == w1.log[i];
    } else if i == |w.log| + 1 {
      assert ApplyControl(w, c).log[i] == w2.log[i];
    }
  }

  /** What a moment of an operation means for a revision. */
  predicate Settles(revision: nat, w: World, op: Op, n: nat, m: Moment) {
    if AppliedIfStored(revision, w.disk, w.tally)
    then AppliedIfStored(revision, m.disk, m.tally) <==> !StopsBeforeApply(revision, w, op, n)
    else !AppliedIfStored(revision, m.disk, m.tally)
  }

  lemma ControlSettles(revision: nat, w: World, c: Control, i: nat)
    requires w.tally.applied <= w.disk.controls.Keys && |w.log| <= i < |ApplyControl(w, c).log|
    ensures Settles(revision, w, ControlOp(c), i - |w.log| + 1, ApplyControl(w, c).log[i])
  {
    ControlMoments(w, c, i);
    var m := ApplyControl(w, c).log[i];
    assert revision in m.disk.controls.Keys <==> revision in w.disk.controls.Keys || revision == c.revision;
  }

  lemma MomentSettles(revision: nat, w: World, op: Op, i: nat)
    requires w.tally.applied <= w.disk.controls.Keys && |w.log| <= i < |Perform(w, op).log|
    ensures Settles(revision, w, op, i - |w.log| + 1, Perform(w, op).log[i])
  {
    match op
    case StepOp(env) =>
      StepQuiet(w, env);
      assert QuietMoment(w, Perform(w, op).log[i]);
    case EmitOp(payload) =>
      EmitQuiet(w, payload);
      assert QuietMoment(w, Perform(w, op).log[i]);
    case ControlOp(c) => ControlSettles(revision, w, c, i);
  }

  lemma AppliesIsLaw(revision: nat)
    ensures Law(Applies(revision))
  {
    forall w, op | Inv(w) && Agrees(w) && OpOK(op)
      ensures Decides(Applies(revision), w, op, Perform(w, op))
    {
      SettlingDecides(revision, w, op);
    }
  }

  lemma StopsAreInside(revision: nat, w: World, op: Op)
    ensures BreaksInside(Applies(revision), w, op, Perform(w, op))
  {
    if op.ControlOp? && op.control.revision !in w.disk.controls {
      assert |ApplyControl(w, op.control).log| >= |w.log| + 2;
    }
  }

  lemma SettlingDecides(revision: nat, w: World, op: Op)
    requires w.tally.applied <= w.disk.controls.Keys
    ensures Decides(Applies(revision), w, op, Perform(w, op))
  {
    var v := Perform(w, op);
    StopsAreInside(revision, w, op);
    forall i | |w.log| <= i < |v.log|
      ensures Settles(revision, w, op, i - |w.log| + 1, v.log[i])
    {
      MomentSettles(revision, w, op, i);
    }
    SettledDecides(revision, w, op, v);
  }

  lemma SettledDecides(revision: nat, w: World, op: Op, v: World)
    requires BreaksInside(Applies(revision), w, op, v)
    requires forall i :: |w.log| <= i < |v.log| ==> Settles(revision, w, op, i - |w.log| + 1, v.log[i])
    ensures Decides(Applies(revision), w, op, v)
  {
    var p := Applies(revision);
    if p.ahead(w.disk, w.tally) {
      forall i | |w.log| <= i < |v.log|
        ensures MomentKeeps(p, w, op, i - |w.log| + 1, v.log[i])
      {
        assert Settles(revision, w, op, i - |w.log| + 1, v.log[i]);
      }
    } else {
      forall k | |w.log| < k <= |v.log|
        ensures !KeptUpTo(p, v.log, k)
      {
        assert Settles(revision, w, op, k - |w.log|, v.log[k - 1]);
      }
    }
  }

  /** The control with this revision was handed to the installer by moment `i`. */
  ghost predicate AppliedBy(log: seq<Moment>, revision: nat, i: nat)
    requires i < |log|
  {
    exists j :: 0 <= j <= i && log[j].call == ApplyCalled(revision)
  }

  lemma {:induction false} AppliedIff(log: seq<Moment>, max: nat, revision: nat, i: nat)
    requires LogOK(log, max) && i < |log| && log[0].call.Boot? && log[0].tally.applied == {}
    ensures revision in log[i].tally.applied <==> AppliedBy(log, revision, i)
  {
    if i > 0 {
      assert Follows(log[i - 1], log[i]);
      AppliedIff(log, max, revision, i - 1);
      AppliedStep(log, revision, i);
    }
  }

  lemma AppliedStep(log: seq<Moment>, revision: nat, i: nat)
    requires 0 < i < |log|
    ensures AppliedBy(log, revision, i) <==> AppliedBy(log, revision, i - 1) || log[i].call == ApplyCalled(revision)
  {
  }

  // ------------------------------------------------------------------------- main theorems

  lemma AppliedInHistory(max: nat, actions: seq<Action>, revision: nat)
    requires ActionsOK(actions)
    ensures var v := History(First(max), actions);
            && v.log != []
            && (revision in v.tally.applied <==> AppliedBy(v.log, revision, |v.log| - 1))
            && (Keeps(Applies(revision), v) <==> AppliedIfStored(revision, v.disk, v.tally))
  {
    FirstIsSound(max);
    HistoryIsSound(First(max), actions);
    var v := History(First(max), actions);
    assert v.log[0] == First(max).log[0];
    AppliedIff(v.log, max, revision, |v.log| - 1);
  }

  lemma AppliedIfStoredIff(max: nat, actions: seq<Action>, revision: nat)
    requires ActionsOK(actions)
    ensures var v := History(First(max), actions);
            AppliedIfStored(revision, v.disk, v.tally) <==> NeverBreaks(Applies(revision), First(max), actions)
  {
    AppliesIsLaw(revision);
    AppliedInHistory(max, actions, revision);
    KeptIff(Applies(revision), max, actions);
  }

  /** In every history, with stops anywhere: a stored control has been handed to the installer
      at some moment if and only if no stop fell between its record and that call. */
  lemma StoredIsAppliedIff(max: nat, actions: seq<Action>, revision: nat)
    requires ActionsOK(actions) && revision in History(First(max), actions).disk.controls
    ensures var log := History(First(max), actions).log;
            (exists i :: 0 <= i < |log| && log[i].call == ApplyCalled(revision))
            <==> NeverBreaks(Applies(revision), First(max), actions)
  {
    AppliedIfStoredIff(max, actions, revision);
    AppliedInHistory(max, actions, revision);
  }

  /** After such a stop the control is stored for good and never applied, however often it is
      sent again. */
  lemma CrashBeforeApplyDropsControl(max: nat, c: Control, rest: seq<Action>)
    requires ActionsOK(rest)
    ensures var v := History(First(max), [DieIn(ControlOp(c), 1)] + rest);
            && c.revision in v.disk.controls
            && forall i :: 0 <= i < |v.log| ==> v.log[i].call != ApplyCalled(c.revision)
  {
    var all := [DieIn(ControlOp(c), 1)] + rest;
    assert all[0] == DieIn(ControlOp(c), 1) && all[1..] == rest;
    assert Breaks(Applies(c.revision), First(max), all[0]);
    AppliedIfStoredIff(max, all, c.revision);
    AppliedInHistory(max, all, c.revision);
  }

  /** A new process starts with nothing pending, and its first acknowledgement is number 1. */
  lemma FirstAckIsOne(w: World, c: Control)
    requires c.revision !in w.disk.controls && c.applied
    ensures PendingOK(Restart(w))
    ensures var v := ApplyControl(Restart(w), c);
            && |v.log| == |w.log| + 4 && w.log <= v.log && v.log[|w.log| + 3].call == AckSent(1)
            && v.disk.controls.Keys == w.disk.controls.Keys + {c.revision}
  {
  }

  /** So acknowledgement numbers repeat: after any history, two processes that each apply one
      new control send the same number. */
  lemma AckNumbersRepeat(max: nat, actions: seq<Action>, c: Control, d: Control)
    requires var w := History(First(max), actions);
             c.revision !in w.disk.controls && d.revision !in w.disk.controls && c.revision != d.revision
    requires c.applied && d.applied
    ensures var log := History(First(max), actions + [RestartNow, Do(ControlOp(c)), RestartNow, Do(ControlOp(d))]).log;
            exists i, j :: 0 <= i < j < |log| && log[i].call == AckSent(1) && log[j].call == AckSent(1)
  {
    var w := History(First(max), actions);
    var u := ApplyControl(Restart(w), c);
    var v := ApplyControl(Restart(u), d);
    FirstAckIsOne(w, c);
    FirstAckIsOne(u, d);
    var cs, ds := [RestartNow, Do(ControlOp(c))], [RestartNow, Do(ControlOp(d))];
    TwoMoreActions(w, cs[0], cs[1]);
    TwoMoreActions(u, ds[0], ds[1]);
    HistoryOn(w, cs, ds);
    HistoryOn(First(max), actions, cs + ds);
    assert cs + ds == [RestartNow, Do(ControlOp(c)), RestartNow, Do(ControlOp(d))];
    assert v.log[|w.log| + 3] == u.log[|w.log| + 3];
  }
}
