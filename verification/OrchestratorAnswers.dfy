/** What a step before the execution stores for each answer it is given, and when it does
    nothing at all. */
module OrchestratorAnswers {
  import opened Wrappers
  import opened Bytes
  import opened OrchestratorState
  import opened OrchestratorSpec
  import opened OrchestratorInvariants
  import opened OrchestratorHistory
  import opened OrchestratorBoundaries
  import opened OrchestratorPermits
  import opened OrchestratorTurns
  import opened OrchestratorStages
  import opened OrchestratorGates

  /** From `w` to `v` these disks became durable, one after another, and nothing else happened. */
  ghost predicate Became(w: World, v: World, disks: seq<Disk>) {
    && w.log <= v.log && |v.log| == |w.log| + |disks| && v.tally == w.tally
    && v.disk == (if disks == [] then w.disk else disks[|disks| - 1])
    && forall i :: 0 <= i < |disks| ==> v.log[|w.log| + i].disk == disks[i] && v.log[|w.log| + i].call == Wrote
  }

  function Stored(d: Disk, t: Task, state: VtState): Disk {
    d.(task := Some(VehicleTaskRec(Some(t), state)))
  }

  /** A step in search of a task: only an inventory that is not accepted is remembered as to be
      sent in full; a task that is found is stored as DISCOVERED, and then as what it waits for. */
  ghost predicate Detects(w: World, e: StepEnv, v: World) {
    match e.check
    case None => Became(w, v, [])
    case Some(TaskMissing) => Became(w, v, [])
    case Some(NotAccepted) => Became(w, v, [w.disk.(fullRequired := true)])
    case Some(TaskFound(t)) =>
      if t.consentRequired then Became(w, v, [Stored(w.disk, t, Discovered), Stored(w.disk, t, ConsentPending)])
      else Became(w, v, [Stored(w.disk, t, Discovered), Stored(w.disk, t, DownloadPending)])
  }

  /** A step that asks for consent: the answer of the cloud is stored, for this task, and then
      the state that follows from it. */
  ghost predicate AsksConsent(w: World, e: StepEnv, v: World)
    requires SnapshotAt(w.disk).Some?
  {
    var t := SnapshotAt(w.disk).value;
    match e.consent
    case None => Became(w, v, [])
    case Some(reply) =>
      var d := w.disk.(consent := Some(ConsentRec(t.id, reply.accepted, reply.receiptId)));
      Became(w, v, [d, Stored(d, t, if reply.accepted then DownloadPending else Ended)])
  }

  ghost predicate StartsWaiting(w: World, v: World) {
    SnapshotAt(w.disk).Some? && Became(w, v, [Stored(w.disk, SnapshotAt(w.disk).value, WaitingWindow)])
  }

  lemma PutBecomes(w: World, a: Disk)
    ensures Became(w, Put(w, a), [a])
  {
  }

  lemma TwoPuts(w: World, m: Mem, a: Disk, b: Disk)
    ensures Became(w, Put(Put(w, a).(mem := m), b), [a, b])
  {
  }

  lemma Detecting(w: World, e: StepEnv)
    requires Inv(w) && EnvOK(e) && (w.mem.vt == NoTask || w.mem.vt == Discovered)
    ensures Detects(w, e, CheckTask(w, e))
  {
    if e.check.Some? && e.check.value.TaskFound? {
      var t := e.check.value.task;
      var state := if t.consentRequired then ConsentPending else DownloadPending;
      var w1 := Put(w, Stored(w.disk, t, Discovered));
      TwoPuts(w, w.mem.(task := t, vt := state), Stored(w.disk, t, Discovered), Stored(w.disk, t, state));
      assert CheckTask(w, e) == Accept(w, t);
    }
  }

  lemma Asking(w: World, e: StepEnv)
    requires Inv(w) && w.mem.vt == ConsentPending
    ensures SnapshotAt(w.disk).Some? && AsksConsent(w, e, Consent(w, e))
  {
    TaskIsReal(w);
    if e.consent.Some? {
      var reply := e.consent.value;
      var state := if reply.accepted then DownloadPending else Ended;
      var d := w.disk.(consent := Some(ConsentRec(w.mem.task.id, reply.accepted, reply.receiptId)));
      TwoPuts(w, w.mem.(vt := state), d, Stored(d, w.mem.task, state));
    }
  }

  lemma Requesting(w: World, e: StepEnv)
    requires Inv(w) && AwaitsPermit(w.mem.vt) && !Grants(w, e)
    ensures if w.mem.vt == Ready then StartsWaiting(w, Step(w, e)) else Became(w, Step(w, e), [])
  {
    TaskIsReal(w);
    var v := Settle(w);
    DispatchRequests(v, e);
    if w.mem.vt == Ready {
      PutBecomes(w, Stored(w.disk, w.mem.task, WaitingWindow));
    }
  }

  /** What a step does in each stored state before the execution, and at the end. */
  ghost predicate Answers(w: World, e: StepEnv, v: World) {
    && (TaskAt(w.disk) in {None, Some(NoTask), Some(Discovered)} ==> Detects(w, e, v))
    && (TaskAt(w.disk) == Some(ConsentPending) ==> SnapshotAt(w.disk).Some? && AsksConsent(w, e, v))
    && (TaskAt(w.disk) == Some(Ready) ==> StartsWaiting(w, v))
    && (TaskAt(w.disk) in {Some(WaitingWindow), Some(PermitPending), Some(RetryPending)} && !PermitIsOpen(w.disk, e) ==>
          Became(w, v, []))
    && (TaskAt(w.disk) in {Some(Paused), Some(Completed), Some(Ended)} ==> Became(w, v, []))
  }

  lemma Detected(w: World, e: StepEnv)
    requires Inv(w) && EnvOK(e) && (w.mem.vt == NoTask || w.mem.vt == Discovered)
    ensures Answers(w, e, Step(w, e))
  {
    Detecting(w, e);
    assert Step(w, e) == CheckTask(w, e);
  }

  lemma Asked(w: World, e: StepEnv)
    requires Inv(w) && w.mem.vt == ConsentPending
    ensures Answers(w, e, Step(w, e))
  {
    Asking(w, e);
    assert Step(w, e) == Consent(w, e);
  }

  lemma Awaiting(w: World, e: StepEnv)
    requires Inv(w) && AwaitsPermit(w.mem.vt)
    ensures Answers(w, e, Step(w, e))
  {
    OpenIsGrants(w, e);
    if !Grants(w, e) {
      Requesting(w, e);
    }
  }

  lemma Others(w: World, e: StepEnv)
    requires Inv(w) && w.mem.vt != NoTask && w.mem.vt != Discovered && w.mem.vt != ConsentPending
    requires !AwaitsPermit(w.mem.vt)
    ensures Answers(w, e, Step(w, e))
  {
    if !Prepares(w.mem.vt) && !AfterPermit(w.mem.vt) {
      DispatchRests(w, e);
    }
  }

  lemma StepAnswers(w: World, e: StepEnv)
    requires Inv(w) && EnvOK(e)
    ensures Answers(w, e, Step(w, e))
  {
    if w.mem.vt == NoTask || w.mem.vt == Discovered {
      Detected(w, e);
    } else if w.mem.vt == ConsentPending {
      Asked(w, e);
    } else if AwaitsPermit(w.mem.vt) {
      Awaiting(w, e);
    } else {
      Others(w, e);
    }
  }

  /** In every history, what the next step stores for each answer, as long as no package is to
      be downloaded and no permit is given and nothing is executed. */
  lemma AnswersAreStored(max: nat, actions: seq<Action>, e: StepEnv)
    requires ActionsOK(actions) && EnvOK(e)
    ensures Answers(History(First(max), actions), e, Step(History(First(max), actions), e))
  {
    FirstIsSound(max);
    HistoryIsSound(First(max), actions);
    StepAnswers(History(First(max), actions), e);
  }

  // ------------------------------------------------------------------------------- controls

  function WithControl(d: Disk, r: ControlRec): Disk {
    d.(controls := d.controls[r.revision := r])
  }

  /** A control whose revision is stored already changes nothing. A new one is stored without an
      acknowledgement, handed over, and, if that applied it, stored with the next number and
      acknowledged with it; both revisions are remembered for the final report. */
  predicate Handles(w: World, c: Control, v: World) {
    var n, ack := |w.log|, w.mem.ackSeq;
    if c.revision in w.disk.controls then v == w
    else
      && w.log <= v.log && |v.log| == n + (if c.applied then 4 else 2)
      && v.log[n].call == Wrote && v.log[n].disk == WithControl(w.disk, ControlRec(c.controlId, c.revision, None))
      && v.log[n + 1].call == ApplyCalled(c.revision) && v.log[n + 1].disk == v.log[n].disk
      && (c.applied ==>
            && v.log[n + 2].call == Wrote
            && v.log[n + 2].disk == WithControl(w.disk, ControlRec(c.controlId, c.revision, Some(ack)))
            && v.log[n + 3].call == AckSent(ack) && v.log[n + 3].disk == v.log[n + 2].disk)
      && v.disk == v.log[|v.log| - 1].disk && v.mem.lastReceived == c.revision
      && v.mem.lastApplied == (if c.applied then c.revision else w.mem.lastApplied)
      && v.mem.ackSeq == (if c.applied then ack + 1 else ack)
      && v.mem.pending == (if c.applied then Without(w.mem.pending + [c.controlId], c.controlId)
                           else w.mem.pending + [c.controlId])
      && v.mem == w.mem.(lastReceived := v.mem.lastReceived, lastApplied := v.mem.lastApplied, ackSeq := v.mem.ackSeq,
                         pending := v.mem.pending)
  }

  lemma ControlIsHandled(w: World, c: Control)
    ensures Handles(w, c, ApplyControl(w, c))
  {
    if c.revision !in w.disk.controls {
      var w1 := Receive(w, c);
      var w2 := Say(w1, ApplyCalled(c.revision));
      assert w2.log == w.log + [w1.log[|w.log|], w2.log[|w1.log|]];
      if c.applied {
        assert WithControl(w2.disk, ControlRec(c.controlId, c.revision, Some(w.mem.ackSeq)))
            == WithControl(w.disk, ControlRec(c.controlId, c.revision, Some(w.mem.ackSeq)));
        assert ApplyControl(w, c).log[..|w2.log|] == w2.log;
      }
    }
  }

  lemma WithoutOneMore(ids: seq<Id>, x: Id, id: Id)
    ensures Without(ids + [x], id) == Without(ids, id) + (if x == id then [] else [x])
  {
    assert (ids + [x])[..|ids|] == ids;
  }

  lemma Regroup(a: seq<Id>, b: seq<Id>, x: Id)
    ensures a + b + [x] == a + (b + [x])
  {
  }

  /** Removing an id leaves the other ids in their order: it goes through the ids one by one. */
  lemma {:induction false} OthersStay(a: seq<Id>, b: seq<Id>, id: Id)
    ensures Without(a + b, id) == Without(a, id) + Without(b, id)
    decreases |b|
  {
    if b == [] {
      assert a + b == a;
    } else {
      var n, x := |b| - 1, b[|b| - 1];
      assert b == b[..n] + [x];
      Regroup(a, b[..n], x);
      OthersStay(a, b[..n], id);
      WithoutOneMore(a + b[..n], x, id);
      WithoutOneMore(b[..n], x, id);
    }
  }

  lemma OneIdStays(x: Id, id: Id)
    ensures Without([x], id) == if x == id then [] else [x]
  {
    WithoutOneMore([], x, id);
    assert [] + [x] == [x];
  }
}
