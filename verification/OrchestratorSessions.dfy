/** Control acknowledgements within one process. */
module OrchestratorSessions {
  import opened Wrappers
  import opened Bytes
  import opened OrchestratorState
  import opened OrchestratorSpec
  import opened OrchestratorSegments
  import opened OrchestratorHistory

  predicate QuietMoment(w: World, m: Moment) {
    !m.call.AckSent? && m.disk.controls == w.disk.controls && m.tally.applied == w.tally.applied
  }

  /** From `w` to `v` nothing was applied or acknowledged, and the control bookkeeping is
      untouched. */
  ghost predicate Quiet(w: World, v: World) {
    && w.log <= v.log && (forall i :: |w.log| <= i < |v.log| ==> QuietMoment(w, v.log[i]))
    && SameBookkeeping(w.mem, v.mem)
    && v.disk.controls == w.disk.controls && v.tally.applied == w.tally.applied
  }

  lemma QuietOn(u: World, v: World, w: World)
    requires Quiet(u, v) && Quiet(v, w)
    ensures Quiet(u, w)
  {
    forall i | |u.log| <= i < |w.log|
      ensures QuietMoment(u, w.log[i])
    {
      if i < |v.log| {
        assert w.log[i] == v.log[i];
      }
    }
  }

  lemma PutQuiet(w: World, d: Disk)
    requires d.controls == w.disk.controls
    ensures Quiet(w, Put(w, d))
  {
  }

  lemma SayQuiet(w: World, call: Call)
    requires !call.AckSent? && !call.ApplyCalled?
    ensures Quiet(w, Say(w, call))
  {
  }

  lemma WritesAreQuiet(w: World, v: World)
    requires Writes(w, v)
    ensures Quiet(w, v)
  {
    forall i | |w.log| <= i < |v.log|
      ensures QuietMoment(w, v.log[i])
    {
      assert IsWrite(w, v.log[i]);
    }
  }

  lemma EmitQuiet(w: World, payload: ByteString)
    ensures Quiet(w, Emit(w, payload))
  {
    EmitWrites(w, payload);
    WritesAreQuiet(w, Emit(w, payload));
  }

  lemma TakePermitQuiet(w: World, permit: Permit)
    ensures Quiet(w, TakePermit(w, permit))
  {
    var v := w.(mem := Hold(w.mem, permit));
    var w1 := MoveTo(v, Executing);
    PutQuiet(v, w1.disk);
    var w2 := Put(w1, w1.disk.(execution := Some(ExecutionOf(w1.mem))));
    PutQuiet(w1, w2.disk);
    PutQuiet(w2, PersistExecution(w1).disk);
    QuietOn(w1, w2, PersistExecution(w1));
    QuietOn(w, w1, TakePermit(w, permit));
  }

  lemma RequestPermitQuiet(w: World, e: StepEnv)
    ensures Quiet(w, RequestPermit(w, e))
  {
    if w.mem.vt == Ready {
      MoveToWrites(w, WaitingWindow);
      WritesAreQuiet(w, MoveTo(w, WaitingWindow));
    } else if e.permit.Some? && e.permit.value.Some? {
      var permit := e.permit.value.value;
      var w1 := Say(w, GrantOf(permit));
      SayQuiet(w, GrantOf(permit));
      TakePermitQuiet(w1, permit);
      QuietOn(w, w1, TakePermit(w1, permit));
    }
  }

  lemma SendEventsQuiet(w: World, e: StepEnv)
    requires !NotYetStarted(w.mem.ex)
    ensures Quiet(w, SendEvents(w, e))
  {
    SendEventsInParts(w, e);
    SentAllWrites(w, e);
    var w3 := SentAll(w, e);
    WritesAreQuiet(w, w3);
    var w4 := Say(w3, ReportOf(w3.mem));
    SayQuiet(w3, ReportOf(w3.mem));
    FinalizeWrites(w3, e);
    WritesAreQuiet(w4, Finalize(w3, e));
    QuietOn(w3, w4, Finalize(w3, e));
    QuietOn(w, w3, Finalize(w3, e));
  }

  lemma StartQuiet(w: World, e: StepEnv)
    ensures Quiet(w, Start(w, e))
  {
    var w0 := Say(w, StartOf(w, e));
    SayQuiet(w, StartOf(w, e));
    EmitAllWrites(w0, e.emitted);
    WritesAreQuiet(w0, Start(w, e));
    QuietOn(w, w0, Start(w, e));
  }

  lemma ExecuteQuiet(w: World, e: StepEnv)
    ensures Quiet(w, Execute(w, e))
  {
    if !NotYetStarted(w.mem.ex) {
      SendEventsQuiet(w, e);
    } else if e.prepared {
      StartQuiet(w, e);
      if e.started {
        var w1 := Start(w, e);
        var w2 := w1.(mem := w1.mem.(ex := InstallStarted));
        PersistExecutionWrites(w2);
        WritesAreQuiet(w2, RecordStart(w1));
        QuietOn(w, w1, RecordStart(w1));
        SendEventsQuiet(RecordStart(w1), e);
        QuietOn(w, RecordStart(w1), Execute(w, e));
      }
    }
  }

  lemma DispatchQuiet(w: World, e: StepEnv)
    ensures Quiet(w, Dispatch(w, e))
  {
    match w.mem.vt
    case Ready => RequestPermitQuiet(w, e);
    case WaitingWindow => RequestPermitQuiet(w, e);
    case PermitPending => RequestPermitQuiet(w, e);
    case Executing => ExecuteQuiet(w, e);
    case _ =>
      PreparingStepWrites(w, e);
      WritesAreQuiet(w, Dispatch(w, e));
  }

  lemma StepQuiet(w: World, e: StepEnv)
    ensures Quiet(w, Step(w, e))
  {
    DispatchQuiet(Settle(w), e);
    QuietOn(w, Settle(w), Dispatch(Settle(w), e));
  }

  // ------------------------------------------------------------------ acknowledgement numbers

  /** From `from` on, numbers strictly increase and stay below the next one. */
  ghost predicate AcksRise(log: seq<Moment>, from: nat, next: nat) {
    && (forall i :: from <= i < |log| && log[i].call.AckSent? ==> log[i].call.number < next)
    && (forall i, j :: from <= i < j < |log| && log[i].call.AckSent? && log[j].call.AckSent? ==>
          log[i].call.number < log[j].call.number)
  }

  lemma QuietKeepsAcks(w: World, v: World, from: nat)
    requires Quiet(w, v) && AcksRise(w.log, from, w.mem.ackSeq)
    ensures AcksRise(v.log, from, v.mem.ackSeq)
  {
    forall i | from <= i < |v.log| && v.log[i].call.AckSent?
      ensures i < |w.log| && v.log[i] == w.log[i]
    {
      assert i >= |w.log| ==> QuietMoment(w, v.log[i]);
    }
  }

  lemma AcknowledgeRises(w: World, c: Control, from: nat)
    requires AcksRise(w.log, from, w.mem.ackSeq)
    ensures AcksRise(Acknowledge(w, c).log, from, Acknowledge(w, c).mem.ackSeq)
  {
    var v := TakeAck(w, c);
    assert v.log[..|w.log|] == w.log && |v.log| == |w.log| + 1 && v.log[|w.log|].call == Wrote;
    var u := Acknowledge(w, c);
    assert u.log[..|v.log|] == v.log && |u.log| == |v.log| + 1 && u.log[|v.log|].call == AckSent(w.mem.ackSeq);
    forall i | from <= i < |u.log| - 1 && u.log[i].call.AckSent?
      ensures i < |w.log| && u.log[i] == w.log[i]
    {
      assert u.log[i] == v.log[i];
    }
  }

  lemma ReceiveQuiets(w: World, c: Control, from: nat)
    requires AcksRise(w.log, from, w.mem.ackSeq)
    ensures var v := Say(Receive(w, c), ApplyCalled(c.revision)); AcksRise(v.log, from, v.mem.ackSeq)
  {
    var v := Say(Receive(w, c), ApplyCalled(c.revision));
    assert v.log[..|w.log|] == w.log && |v.log| == |w.log| + 2;
    assert v.log[|w.log|].call == Wrote && v.log[|w.log| + 1].call == ApplyCalled(c.revision);
    forall i | from <= i < |v.log| && v.log[i].call.AckSent?
      ensures i < |w.log| && v.log[i] == w.log[i]
    {
      assert i < |w.log| ==> v.log[i] == v.log[..|w.log|][i];
    }
  }

  function PerformAll(w: World, ops: seq<Op>): World
    decreases |ops|
  {
    if ops == [] then w else PerformAll(Perform(w, ops[0]), ops[1..])
  }

  lemma {:induction false} SessionAcksRise(w: World, ops: seq<Op>, from: nat)
    requires AcksRise(w.log, from, w.mem.ackSeq)
    ensures AcksRise(PerformAll(w, ops).log, from, PerformAll(w, ops).mem.ackSeq)
    decreases |ops|
  {
    if ops != [] {
      var v := Perform(w, ops[0]);
      match ops[0] {
        case StepOp(env) =>
          StepQuiet(w, env);
          QuietKeepsAcks(w, v, from);
        case EmitOp(payload) =>
          EmitQuiet(w, payload);
          QuietKeepsAcks(w, v, from);
        case ControlOp(c) =>
          if c.revision !in w.disk.controls {
            ReceiveQuiets(w, c, from);
            if c.applied {
              AcknowledgeRises(Say(Receive(w, c), ApplyCalled(c.revision)), c, from);
            }
          }
      }
      SessionAcksRise(v, ops[1..], from);
    }
  }

  /** Whatever one process does, its acknowledgement numbers strictly increase. */
  lemma AcksStrictlyIncrease(w: World, ops: seq<Op>, i: nat, j: nat)
    requires var log := PerformAll(w, ops).log;
             |w.log| <= i < j < |log| && log[i].call.AckSent? && log[j].call.AckSent?
    ensures var log := PerformAll(w, ops).log; log[i].call.number < log[j].call.number
  {
    SessionAcksRise(w, ops, |w.log|);
  }

  /** A control that was applied is not left pending; until it is applied it is. */
  lemma AppliedIsNotPending(w: World, c: Control)
    requires c.revision !in w.disk.controls
    ensures c.controlId in ApplyControl(w, c).mem.pending <==> !c.applied
  {
    var p := w.mem.pending + [c.controlId];
    assert p[|p| - 1] == c.controlId;
  }

  /** The id belongs to a stored control that has not been acknowledged. */
  predicate IsUnacknowledged(controls: map<nat, ControlRec>, id: Id) {
    exists r :: r in controls && controls[r].controlId == id && controls[r].ackNumber.None?
  }

  ghost predicate PendingOK(w: World) {
    forall id :: id in w.mem.pending ==> IsUnacknowledged(w.disk.controls, id)
  }

  lemma ReceiveKeepsPending(w: World, c: Control)
    requires PendingOK(w) && c.revision !in w.disk.controls
    ensures PendingOK(Receive(w, c))
  {
    var v := Receive(w, c);
    forall id | id in v.mem.pending
      ensures IsUnacknowledged(v.disk.controls, id)
    {
      if id == c.controlId {
        assert v.disk.controls[c.revision].controlId == id;
      } else {
        var r :| r in w.disk.controls && w.disk.controls[r].controlId == id && w.disk.controls[r].ackNumber.None?;
        assert v.disk.controls[r] == w.disk.controls[r];
      }
    }
  }

  lemma AcknowledgeKeepsPending(w: World, c: Control)
    requires PendingOK(w) && c.revision in w.disk.controls && w.disk.controls[c.revision].controlId == c.controlId
    ensures PendingOK(Acknowledge(w, c))
  {
    var v := Acknowledge(w, c);
    forall id | id in v.mem.pending
      ensures IsUnacknowledged(v.disk.controls, id)
    {
      assert id in w.mem.pending && id != c.controlId;
      var r :| r in w.disk.controls && w.disk.controls[r].controlId == id && w.disk.controls[r].ackNumber.None?;
      assert v.disk.controls[r] == w.disk.controls[r];
    }
  }

  lemma PerformKeepsPending(w: World, op: Op)
    requires PendingOK(w)
    ensures PendingOK(Perform(w, op))
  {
    match op
    case StepOp(env) => StepQuiet(w, env);
    case EmitOp(payload) => EmitQuiet(w, payload);
    case ControlOp(c) =>
      if c.revision !in w.disk.controls {
        ReceiveKeepsPending(w, c);
        if c.applied {
          AcknowledgeKeepsPending(Say(Receive(w, c), ApplyCalled(c.revision)), c);
        }
      }
  }

  /** Whatever one process does from its start, each id it holds as pending belongs to a stored
      control without an acknowledgement. */
  lemma {:induction false} PendingIsUnacknowledged(w: World, ops: seq<Op>)
    requires PendingOK(w)
    ensures PendingOK(PerformAll(w, ops))
    decreases |ops|
  {
    if ops != [] {
      PerformKeepsPending(w, ops[0]);
      PendingIsUnacknowledged(Perform(w, ops[0]), ops[1..]);
    }
  }
}
