/** Whole histories: operations, restarts, and crashes at any moment inside an operation. */
module OrchestratorHistory {
  import opened Wrappers
  import opened Bytes
  import opened OrchestratorState
  import opened OrchestratorSpec
  import opened OrchestratorInvariants

  datatype Op = StepOp(env: StepEnv) | EmitOp(payload: ByteString) | ControlOp(control: Control)

  function Perform(w: World, op: Op): World {
    match op
    case StepOp(env) => Step(w, env)
    case EmitOp(payload) => Emit(w, payload)
    case ControlOp(control) => ApplyControl(w, control)
  }

  ghost predicate OpOK(op: Op) {
    op.StepOp? ==> EnvOK(op.env)
  }

  lemma PerformKeeps(w: World, op: Op)
    requires Inv(w) && OpOK(op)
    ensures Continues(w, Perform(w, op)) && Inv(Perform(w, op))
  {
    match op
    case StepOp(env) => StepKeeps(w, env);
    case EmitOp(payload) => EmitKeeps(w, payload);
    case ControlOp(control) => ApplyControlKeeps(w, control);
  }

  /** Of the moments of an operation only the first `n` happen; then a new process starts. */
  function CutAt(v: World, n: nat): World
    requires 0 < n <= |v.log|
  {
    var m := v.log[n - 1];
    Restart(v.(disk := m.disk, tally := m.tally, log := v.log[..n]))
  }

  datatype Action = Do(op: Op) | DieIn(op: Op, moments: nat) | RestartNow

  function Kept(w: World, v: World, moments: nat): nat {
    if |w.log| + moments <= |v.log| then |w.log| + moments else |v.log|
  }

  /** An operation from `w` to `v`, stopped after so many moments. */
  function Stopped(w: World, v: World, moments: nat): World {
    if 0 < Kept(w, v, moments) <= |v.log| then CutAt(v, Kept(w, v, moments)) else v
  }

  lemma StoppedInside(w: World, v: World, moments: nat)
    requires 0 < |w.log| + moments <= |v.log|
    ensures Stopped(w, v, moments) == CutAt(v, |w.log| + moments)
  {
  }

  function Act(w: World, a: Action): World {
    match a
    case Do(op) => Perform(w, op)
    case DieIn(op, moments) => Stopped(w, Perform(w, op), moments)
    case RestartNow => Restart(w)
  }

  function History(w: World, actions: seq<Action>): World
    decreases |actions|
  {
    if actions == [] then w else History(Act(w, actions[0]), actions[1..])
  }

  lemma {:induction false} HistoryOn(w: World, first: seq<Action>, rest: seq<Action>)
    ensures History(w, first + rest) == History(History(w, first), rest)
    decreases |first|
  {
    var all := first + rest;
    if first == [] {
      assert all == rest;
    } else {
      var v, tail := Act(w, first[0]), first[1..];
      assert all[0] == first[0] && all[1..] == tail + rest;
      HistoryOn(v, tail, rest);
      HistoryStarts(w, all);
      HistoryStarts(w, first);
    }
  }

  lemma HistoryStarts(w: World, actions: seq<Action>)
    requires actions != []
    ensures History(w, actions) == History(Act(w, actions[0]), actions[1..])
  {
  }

  lemma OneMoreAction(w: World, a: Action)
    ensures History(w, [a]) == Act(w, a)
  {
    assert [a][1..] == [];
  }

  lemma TwoMoreActions(w: World, a: Action, b: Action)
    ensures History(w, [a, b]) == Act(Act(w, a), b)
  {
    assert [a, b][1..] == [b];
    OneMoreAction(Act(w, a), b);
  }

  ghost predicate ActionsOK(actions: seq<Action>) {
    forall i :: 0 <= i < |actions| ==> actions[i].RestartNow? || OpOK(actions[i].op)
  }

  lemma PrefixOfLog(log: seq<Moment>, n: nat, max: nat)
    requires LogOK(log, max) && 0 < n <= |log|
    ensures LogOK(log[..n], max)
  {
    var some := log[..n];
    forall i, j | 0 <= i && j == i + 1 && j < n
      ensures Follows(some[i], some[j])
    {
      assert Follows(log[i], log[j]);
    }
  }

  lemma PrefixIsSound(v: World, n: nat)
    requires Sound(v) && 0 < n <= |v.log|
    ensures Inv(CutAt(v, n))
  {
    var m := v.log[n - 1];
    var cut := v.(disk := m.disk, tally := m.tally, log := v.log[..n]);
    PrefixOfLog(v.log, n, v.max);
    RestartKeeps(cut);
  }

  lemma ActKeeps(w: World, a: Action)
    requires Inv(w) && (a.RestartNow? || OpOK(a.op))
    ensures Inv(Act(w, a)) && w.log <= Act(w, a).log && Act(w, a).max == w.max
  {
    match a
    case Do(op) => PerformKeeps(w, op);
    case DieIn(op, moments) =>
      PerformKeeps(w, op);
      PrefixIsSound(Perform(w, op), Kept(w, Perform(w, op), moments));
    case RestartNow => RestartKeeps(w);
  }

  /** Every history keeps the invariant and only adds to what has happened. */
  lemma {:induction false} HistoryIsSound(w: World, actions: seq<Action>)
    requires Inv(w) && ActionsOK(actions)
    ensures Inv(History(w, actions)) && w.log <= History(w, actions).log && History(w, actions).max == w.max
    decreases |actions|
  {
    if actions != [] {
      ActKeeps(w, actions[0]);
      HistoryIsSound(Act(w, actions[0]), actions[1..]);
    }
  }

  const NO_TALLY: Tally := Tally(0, 0, None, false, {})

  /** The first process on an empty store. */
  function First(max: nat): World {
    World(LoadFromStore(EMPTY_DISK), EMPTY_DISK, NO_TALLY, [Moment(Boot, EMPTY_DISK, NO_TALLY)], max)
  }

  lemma FirstIsSound(max: nat)
    ensures Inv(First(max))
  {
  }

  // ------------------------------------------------------------------------ main theorems

  lemma {:induction false} OutboxGrowsAlong(log: seq<Moment>, max: nat, i: nat, j: nat)
    requires LogOK(log, max) && i <= j < |log|
    ensures OutboxGrows(log[i].disk, log[j].disk)
    ensures log[i].tally.applied <= log[j].tally.applied
    decreases j
  {
    if i < j {
      OutboxGrowsAlong(log, max, i, j - 1);
      assert Follows(log[j - 1], log[j]);
      EventsStayOn(log[i].disk.events, log[j - 1].disk.events, log[j].disk.events, MetaOf(log[i].disk.meta).next);
    }
  }

  /** The durable outbox is an append-only log at every moment of every history: each number
      below the next one has its record, payloads below it never change again, the next
      number never decreases, and the bound is never exceeded. */
  lemma OutboxIsAppendOnly(max: nat, actions: seq<Action>, i: nat, j: nat, s: nat)
    requires ActionsOK(actions) && i <= j < |History(First(max), actions).log|
    ensures var log := History(First(max), actions).log;
            var before, after := log[i].disk, log[j].disk;
            && MetaOf(before.meta).next <= MetaOf(after.meta).next <= max + 1
            && (1 <= s < MetaOf(before.meta).next ==>
                  && s in before.events && before.events[s].number == s
                  && s in after.events && after.events[s].number == s
                  && after.events[s].payload == before.events[s].payload)
  {
    FirstIsSound(max);
    HistoryIsSound(First(max), actions);
    OutboxGrowsAlong(History(First(max), actions).log, max, i, j);
  }

  lemma OutboxGrewSince(v: World, w: World)
    requires Sound(v) && Sound(w) && v.log <= w.log && w.max == v.max
    ensures OutboxGrows(v.disk, w.disk)
  {
    assert w.log[|v.log| - 1] == v.log[|v.log| - 1];
    OutboxGrowsAlong(w.log, v.max, |v.log| - 1, |w.log| - 1);
  }

  lemma RecordsStay(v: World, actions: seq<Action>, number: nat)
    requires Inv(v) && ActionsOK(actions) && 1 <= number < MetaOf(v.disk.meta).next
    ensures var d := History(v, actions).disk;
            && number < MetaOf(d.meta).next && number in d.events && number in v.disk.events
            && d.events[number].number == number && d.events[number].payload == v.disk.events[number].payload
  {
    HistoryIsSound(v, actions);
    OutboxGrewSince(v, History(v, actions));
  }

  lemma EmitStores(w: World, payload: ByteString)
    requires !OutboxFull(w)
    ensures var number := MetaOf(w.disk.meta).next;
            var d := Emit(w, payload).disk;
            MetaOf(d.meta).next == number + 1 && number in d.events && d.events[number].payload == payload
  {
  }

  /** An emit that returned true is never lost: its record stays, whatever happens next. */
  lemma EmittedIsKept(w: World, payload: ByteString, actions: seq<Action>)
    requires Inv(w) && ActionsOK(actions) && !OutboxFull(w)
    ensures var number := MetaOf(w.disk.meta).next;
            var d := History(Emit(w, payload), actions).disk;
            && number < MetaOf(d.meta).next && number in d.events
            && d.events[number].number == number && d.events[number].payload == payload
  {
    EmitKeeps(w, payload);
    EmitStores(w, payload);
    RecordsStay(Emit(w, payload), actions, MetaOf(w.disk.meta).next);
  }

  /** Whenever the installer is started, the frozen task on disk has its consent accepted if
      it needs one, every package record is ready, and an allowed permit has been received. */
  lemma StartIsGated(max: nat, actions: seq<Action>, i: nat)
    requires ActionsOK(actions)
    requires var log := History(First(max), actions).log; i < |log| && log[i].call.StartCalled?
    ensures InstallAllowed(History(First(max), actions).log[i].disk, History(First(max), actions).log[i].tally)
  {
    FirstIsSound(max);
    HistoryIsSound(First(max), actions);
  }

  /** The final result is reported only when every event with a payload is acknowledged. */
  lemma FinalIsGated(max: nat, actions: seq<Action>, i: nat)
    requires ActionsOK(actions)
    requires var log := History(First(max), actions).log; i < |log| && log[i].call.FinalReported?
    ensures var m := History(First(max), actions).log[i];
            && AllSettled(m.disk.events, MetaOf(m.disk.meta).next)
            && WatermarkOK(m.call.finalSeq, MetaOf(m.disk.meta).next, m.disk.events)
  {
    FirstIsSound(max);
    HistoryIsSound(First(max), actions);
    assert CallOK(History(First(max), actions).log[i]);
  }

  /** A durable accepted watermark other than 0 names an acknowledged event below next. */
  lemma WatermarkNamesAcknowledged(max: nat, actions: seq<Action>, i: nat)
    requires ActionsOK(actions) && i < |History(First(max), actions).log|
    ensures var d := History(First(max), actions).log[i].disk;
            WatermarkOK(MetaOf(d.meta).accepted, MetaOf(d.meta).next, d.events)
  {
    FirstIsSound(max);
    HistoryIsSound(First(max), actions);
  }

  /** No control revision is ever handed to the installer twice. */
  lemma AppliedAtMostOnce(max: nat, actions: seq<Action>, i: nat, j: nat)
    requires ActionsOK(actions)
    requires var log := History(First(max), actions).log;
             i < j < |log| && log[i].call.ApplyCalled? && log[j].call.ApplyCalled?
    ensures var log := History(First(max), actions).log; log[i].call.revision != log[j].call.revision
  {
    FirstIsSound(max);
    HistoryIsSound(First(max), actions);
    var log := History(First(max), actions).log;
    if i > 0 {
      assert Follows(log[i - 1], log[i]);
    }
    OutboxGrowsAlong(log, max, i, j - 1);
    assert Follows(log[j - 1], log[j]);
  }
}
