/** Starts against permits: what holds in every history, and exactly which stops break it. */
module OrchestratorPermits {
  import opened Wrappers
  import opened Bytes
  import opened OrchestratorState
  import opened OrchestratorSpec
  import opened OrchestratorSegments
  import opened OrchestratorInvariants
  import opened OrchestratorHistory
  import opened OrchestratorBoundaries
  import opened OrchestratorPromises

  // --------------------------------------------------------------------- in memory, on disk

  /** The next thing the process does is to start the installer. */
  predicate Due(m: Mem) {
    m.vt == Executing && NotYetStarted(m.ex)
  }

  function DueCount(due: bool): nat {
    if due then 1 else 0
  }

  /** Every start has its own permit, and a start still to come has one left. */
  predicate PermitLeft(w: World) {
    w.tally.starts + DueCount(Due(w.mem)) <= w.tally.permits
  }

  /** A start still to come will be handed the last permit allowed. */
  predicate PermitCurrent(w: World) {
    Due(w.mem) ==> w.tally.granted == Some(PermitRead(w.mem.permit))
  }

  function StoredPermit(d: Disk): ExecutionRec {
    match d.execution
    case None => PermitRead(NO_PERMIT)
    case Some(e) => e.(state := PermitPersisted)
  }

  /** The same two facts of what is durable at a moment. */
  predicate Paid(d: Disk, t: Tally) {
    t.starts + DueCount(StartsNext(d)) <= t.permits
  }

  predicate IsGranted(d: Disk, t: Tally) {
    StartsNext(d) ==> t.granted == Some(StoredPermit(d))
  }

  lemma MemoryIsStored(w: World)
    requires Inv(w) && Agrees(w)
    ensures Due(w.mem) <==> StartsNext(w.disk)
    ensures Due(w.mem) ==> PermitRead(w.mem.permit) == StoredPermit(w.disk)
    ensures PermitLeft(w) <==> Paid(w.disk, w.tally)
    ensures PermitCurrent(w) <==> IsGranted(w.disk, w.tally)
  {
  }

  // ------------------------------------------------------------------ moments of operations

  /** Nothing was allowed or started, and no start has come nearer. */
  predicate Plain(w: World, m: Moment) {
    && !m.call.StartCalled?
    && m.tally == w.tally.(applied := m.tally.applied)
    && (StartsNext(m.disk) ==> StartsNext(w.disk) && m.disk.execution == w.disk.execution)
  }

  ghost predicate AllPlain(w: World, v: World) {
    w.log <= v.log && forall i :: |w.log| <= i < |v.log| ==> Plain(w, v.log[i])
  }

  lemma WritesArePlain(w: World, v: World)
    requires Writes(w, v)
    ensures AllPlain(w, v)
  {
    forall i | |w.log| <= i < |v.log|
      ensures Plain(w, v.log[i])
    {
      assert IsWrite(w, v.log[i]);
    }
  }

  /** What is plain after a plain world is plain. */
  lemma PlainOn(u: World, v: World, w: World)
    requires AllPlain(u, v) && AllPlain(v, w) && Plain(u, Moment(Wrote, v.disk, v.tally))
    ensures AllPlain(u, w)
  {
    forall i | |u.log| <= i < |w.log|
      ensures Plain(u, w.log[i])
    {
      if i < |v.log| {
        assert w.log[i] == v.log[i];
      } else {
        assert Plain(v, w.log[i]);
      }
    }
  }

  lemma SayPlain(w: World, call: Call)
    requires !call.PermitGranted? && !call.StartCalled?
    ensures AllPlain(w, Say(w, call)) && Plain(w, Moment(Wrote, Say(w, call).disk, Say(w, call).tally))
  {
  }

  lemma SendingIsPlain(w: World, e: StepEnv)
    requires !NotYetStarted(w.mem.ex)
    ensures AllPlain(w, SendEvents(w, e))
  {
    SendEventsInParts(w, e);
    SentAllWrites(w, e);
    var w1 := SentAll(w, e);
    WritesArePlain(w, w1);
    var w2 := Say(w1, ReportOf(w1.mem));
    SayPlain(w1, ReportOf(w1.mem));
    FinalizeWrites(w1, e);
    WritesArePlain(w2, Finalize(w1, e));
    PlainOn(w1, w2, Finalize(w1, e));
    PlainOn(w, w1, Finalize(w1, e));
  }

  /** The number of payloads of an installer that the outbox has room for. */
  function Accepted(w: World, payloads: nat): nat {
    var next := MetaOf(w.disk.meta).next;
    if next == 0 || next - 1 >= w.max then 0 else if payloads <= w.max + 1 - next then payloads else w.max + 1 - next
  }

  /** Emitting writes two records for each payload there is room for, and leaves the rest. */
  lemma {:induction false} EmittedMoments(w: World, payloads: seq<ByteString>)
    ensures var v := EmitAll(w, payloads);
            && w.log <= v.log && |v.log| == |w.log| + 2 * Accepted(w, |payloads|)
            && MetaOf(v.disk.meta).next == MetaOf(w.disk.meta).next + Accepted(w, |payloads|)
            && v.tally == w.tally && v.max == w.max && v.disk.task == w.disk.task && v.disk.execution == w.disk.execution
            && forall i :: |w.log| <= i < |v.log| ==> LeftAlone(w, v.log[i])
    decreases |payloads|
  {
    if payloads != [] {
      var n := |payloads| - 1;
      EmittedMoments(w, payloads[..n]);
      EmitLeaves(w, EmitAll(w, payloads[..n]), payloads[n]);
    }
  }

  predicate LeftAlone(w: World, m: Moment) {
    m.call == Wrote && m.tally == w.tally && m.disk.task == w.disk.task && m.disk.execution == w.disk.execution
  }

  lemma EmitLeaves(w: World, v: World, payload: ByteString)
    requires w.log <= v.log && v.tally == w.tally && v.disk.task == w.disk.task && v.disk.execution == w.disk.execution
    requires forall i :: |w.log| <= i < |v.log| ==> LeftAlone(w, v.log[i])
    ensures var u := Emit(v, payload);
            && v.log <= u.log && |u.log| == |v.log| + (if OutboxFull(v) then 0 else 2)
            && MetaOf(u.disk.meta).next == MetaOf(v.disk.meta).next + (if OutboxFull(v) then 0 else 1)
            && u.tally == w.tally && u.max == v.max && u.disk.task == w.disk.task && u.disk.execution == w.disk.execution
            && forall i :: |w.log| <= i < |u.log| ==> LeftAlone(w, u.log[i])
  {
    var u := Emit(v, payload);
    forall i | |w.log| <= i < |u.log|
      ensures LeftAlone(w, u.log[i])
    {
      if i < |v.log| {
        assert u.log[i] == v.log[i];
      }
    }
  }

  // -------------------------------------------------------------------------------- starting

  /** The step asks the installer to start. */
  predicate Attempts(w: World, e: StepEnv) {
    Due(w.mem) && e.prepared
  }

  /** And the installer starts. */
  predicate Starts(w: World, e: StepEnv) {
    Attempts(w, e) && e.started
  }

  /** How many moments pass from the start until it is recorded. */
  function UnrecordedMoments(w: World, e: StepEnv): nat {
    1 + 2 * Accepted(w, |e.emitted|)
  }

  /** While the start is not recorded, only the count of starts has changed. */
  predicate UnrecordedMoment(w: World, e: StepEnv, m: Moment) {
    && m.tally == Counted(w.tally, StartOf(w, e))
    && m.disk.task == w.disk.task && m.disk.execution == w.disk.execution
  }

  lemma StartMoments(w: World, e: StepEnv, i: nat)
    requires |w.log| <= i < |Start(w, e).log|
    ensures |Start(w, e).log| == |w.log| + UnrecordedMoments(w, e)
    ensures UnrecordedMoment(w, e, Start(w, e).log[i])
    ensures Start(w, e).log[i].call == if i == |w.log| then StartOf(w, e) else Wrote
  {
    var w0 := Say(w, StartOf(w, e));
    EmittedMoments(w0, e.emitted);
    if i == |w.log| {
      assert Start(w, e).log[i] == w0.log[i];
    } else {
      assert LeftAlone(w0, Start(w, e).log[i]);
    }
  }

  lemma StartedWorld(w: World, e: StepEnv)
    requires Starts(w, e)
    ensures |Start(w, e).log| == |w.log| + UnrecordedMoments(w, e)
    ensures var w1 := Start(w, e);
            var w3 := RecordStart(w1);
            && w.log <= w1.log <= w3.log && |w3.log| == |w1.log| + 2
            && w3.log[|w1.log|].tally == w3.log[|w1.log| + 1].tally == w3.tally == Counted(w.tally, StartOf(w, e))
            && w3.log[|w1.log|].call == w3.log[|w1.log| + 1].call == Wrote
            && !StartsNext(w3.log[|w1.log|].disk) && !StartsNext(w3.log[|w1.log| + 1].disk) && !StartsNext(w3.disk)
            && w3.mem.ex == InstallStarted
            && Execute(w, e) == SendEvents(w3, e)
  {
    EmittedMoments(Say(w, StartOf(w, e)), e.emitted);
  }

  /** Once the start is recorded, none is still to come. */
  lemma RecordedMoment(w: World, e: StepEnv, i: nat)
    requires Starts(w, e) && |Start(w, e).log| <= i < |Execute(w, e).log|
    ensures |Start(w, e).log| == |w.log| + UnrecordedMoments(w, e) && Start(w, e).log <= Execute(w, e).log
    ensures var m := Execute(w, e).log[i];
            && m.tally.starts == w.tally.starts + 1 && m.tally.permits == w.tally.permits && m.tally.begun
            && !StartsNext(m.disk) && !m.call.StartCalled?
  {
    StartedWorld(w, e);
    var w3 := RecordStart(Start(w, e));
    SendingIsPlain(w3, e);
    if i < |w3.log| {
      assert Execute(w, e).log[i] == w3.log[i];
    } else {
      assert Plain(w3, Execute(w, e).log[i]);
    }
  }

  lemma AttemptInParts(w: World, e: StepEnv)
    requires Attempts(w, e)
    ensures |Start(w, e).log| == |w.log| + UnrecordedMoments(w, e)
    ensures Start(w, e).log <= Step(w, e).log && Step(w, e) == Execute(w, e)
    ensures !e.started ==> Step(w, e) == Start(w, e)
    ensures e.started ==> |Step(w, e).log| > |Start(w, e).log|
  {
    DispatchExecutes(w, e);
    EmittedMoments(Say(w, StartOf(w, e)), e.emitted);
    if e.started {
      StartedWorld(w, e);
      SendingIsPlain(RecordStart(Start(w, e)), e);
    }
  }

  // --------------------------------------------------------------------------- being allowed

  /** The step asks for a permit and is allowed. */
  predicate Grants(w: World, e: StepEnv) {
    && AwaitsPermit(w.mem.vt) && w.mem.vt != Ready
    && w.mem.task.startMs <= e.now < w.mem.task.endMs && e.guards
    && e.permit.Some? && e.permit.value.Some?
  }

  /** Moment `n` of four: allowed; the state stored; the execution stored; the counters stored. */
  predicate IsGrantMoment(w: World, p: Permit, n: nat, m: Moment) {
    && m.call == (if n == 1 then GrantOf(p) else Wrote)
    && m.tally == Counted(w.tally, GrantOf(p))
    && m.disk.task == (if n == 1 then w.disk.task else Some(VehicleTaskRec(Some(w.mem.task), Executing)))
    && m.disk.execution == (if n <= 2 then w.disk.execution else Some(PermitRead(p)))
  }

  lemma GrantMoments(w: World, e: StepEnv, i: nat)
    requires Grants(w, e) && w.mem.task != DEFAULT_TASK && |w.log| <= i < |Step(w, e).log|
    ensures |Step(w, e).log| == |w.log| + 4
    ensures IsGrantMoment(w, e.permit.value.value, i - |w.log| + 1, Step(w, e).log[i])
  {
    GrantSteps(w, e);
    TakeMoments(Say(Settle(w), GrantOf(e.permit.value.value)), e.permit.value.value);
  }

  lemma GrantSteps(w: World, e: StepEnv)
    requires Grants(w, e)
    ensures Step(w, e) == TakePermit(Say(Settle(w), GrantOf(e.permit.value.value)), e.permit.value.value)
  {
    assert Step(w, e) == RequestPermit(Settle(w), e);
  }

  lemma GrantLength(w: World, e: StepEnv)
    requires Grants(w, e)
    ensures |Step(w, e).log| == |w.log| + 4
  {
    GrantSteps(w, e);
    TakeMoments(Say(Settle(w), GrantOf(e.permit.value.value)), e.permit.value.value);
  }

  lemma TakeMoments(w: World, p: Permit)
    ensures var v, task := TakePermit(w, p), Some(VehicleTaskRec(Snapshot(w.mem.task), Executing));
            && |v.log| == |w.log| + 3 && w.log <= v.log
            && v.log[|w.log|] == Moment(Wrote, w.disk.(task := task), w.tally)
            && forall i :: |w.log| < i < |v.log| ==>
                 && v.log[i].call == Wrote && v.log[i].tally == w.tally
                 && v.log[i].disk.task == task && v.log[i].disk.execution == Some(PermitRead(p))
  {
    var w1 := MoveTo(w.(mem := Hold(w.mem, p)), Executing);
    var w2 := Put(w1, w1.disk.(execution := Some(ExecutionOf(w1.mem))));
    assert TakePermit(w, p) == Put(w2, w2.disk.(meta := Some(MetaRec(w.mem.next, w.mem.accepted))));
    assert w1.log == w.log + [Moment(Wrote, w1.disk, w.tally)];
  }

  // ----------------------------------------------------------------- all the other operations

  lemma ControlIsPlain(w: World, c: Control)
    ensures AllPlain(w, ApplyControl(w, c))
  {
  }

  lemma EmitIsPlain(w: World, payload: ByteString)
    ensures AllPlain(w, Emit(w, payload))
  {
    EmitWrites(w, payload);
    WritesArePlain(w, Emit(w, payload));
  }

  lemma RequestIsPlain(w: World, e: StepEnv)
    requires w.mem.vt == Ready || !Grants(w, e)
    requires AwaitsPermit(w.mem.vt) && w.mem.vt != RetryPending
    ensures AllPlain(w, RequestPermit(w, e))
  {
    if w.mem.vt == Ready {
      MoveToWrites(w, WaitingWindow);
      WritesArePlain(w, MoveTo(w, WaitingWindow));
    }
  }

  lemma StepIsPlain(w: World, e: StepEnv)
    requires !Grants(w, e) && !Attempts(w, e)
    ensures AllPlain(w, Step(w, e))
  {
    var v := Settle(w);
    if v.mem.vt == Executing {
      if !NotYetStarted(v.mem.ex) {
        SendingIsPlain(v, e);
      }
      DispatchExecutes(v, e);
    } else if AwaitsPermit(v.mem.vt) {
      RequestIsPlain(v, e);
      DispatchRequests(v, e);
    } else {
      PreparingStepWrites(v, e);
      WritesArePlain(v, Dispatch(v, e));
    }
    assert Step(w, e) == Dispatch(v, e);
  }

  lemma OtherOpsArePlain(w: World, op: Op)
    requires op.StepOp? ==> !Grants(w, op.env) && !Attempts(w, op.env)
    ensures AllPlain(w, Perform(w, op))
  {
    match op
    case StepOp(env) => StepIsPlain(w, env);
    case EmitOp(payload) => EmitIsPlain(w, payload);
    case ControlOp(control) => ControlIsPlain(w, control);
  }

  // ------------------------------------------------------------------------ exact conditions

  /** Stopped after `n` moments, the operation has started the installer on the last permit and
      the start is not recorded. */
  predicate LosesStart(w: World, op: Op, n: nat) {
    && op.StepOp? && Starts(w, op.env) && 1 <= n <= UnrecordedMoments(w, op.env)
    && w.tally.starts + 1 == w.tally.permits
  }

  /** Stopped after `n` moments, the new state is stored and the new permit is not, over an
      execution that has not started and says something else. */
  predicate LosesPermit(w: World, op: Op, n: nat) {
    && op.StepOp? && Grants(w, op.env) && n == 2
    && NotYetStarted(w.mem.ex) && PermitRead(w.mem.permit) != PermitRead(op.env.permit.value.value)
  }

  /** What a moment of an operation is like. */
  predicate MomentOK(w: World, op: Op, n: nat, m: Moment) {
    && (PermitLeft(w) ==> m.tally.starts <= m.tally.permits && (Paid(m.disk, m.tally) <==> !LosesStart(w, op, n)))
    && (PermitCurrent(w) ==> (IsGranted(m.disk, m.tally) <==> !LosesPermit(w, op, n)))
    && (m.call.StartCalled? ==>
          n == 1 && Due(w.mem) && m.call.permit == PermitRead(w.mem.permit) && m.tally.granted == w.tally.granted)
  }

  lemma AttemptMoment(w: World, e: StepEnv, i: nat)
    requires Inv(w) && Agrees(w) && Attempts(w, e) && |w.log| <= i < |Step(w, e).log|
    ensures MomentOK(w, StepOp(e), i - |w.log| + 1, Step(w, e).log[i])
  {
    MemoryIsStored(w);
    AttemptInParts(w, e);
    var n, m := i - |w.log| + 1, Step(w, e).log[i];
    if i < |Start(w, e).log| {
      StartMoments(w, e, i);
      assert m == Start(w, e).log[i];
      UnrecordedIsOK(w, e, n, m);
    } else {
      RecordedMoment(w, e, i);
      RecordedIsOK(w, e, n, m);
    }
  }

  lemma UnrecordedIsOK(w: World, e: StepEnv, n: nat, m: Moment)
    requires Attempts(w, e) && 1 <= n <= UnrecordedMoments(w, e) && StartsNext(w.disk)
    requires PermitRead(w.mem.permit) == StoredPermit(w.disk)
    requires UnrecordedMoment(w, e, m) && m.call == (if n == 1 then StartOf(w, e) else Wrote)
    ensures MomentOK(w, StepOp(e), n, m)
  {
  }

  lemma RecordedIsOK(w: World, e: StepEnv, n: nat, m: Moment)
    requires Starts(w, e) && n > UnrecordedMoments(w, e)
    requires m.tally.starts == w.tally.starts + 1 && m.tally.permits == w.tally.permits
    requires !StartsNext(m.disk) && !m.call.StartCalled?
    ensures MomentOK(w, StepOp(e), n, m)
  {
  }

  lemma GrantMoment(w: World, e: StepEnv, i: nat)
    requires Inv(w) && Agrees(w) && Grants(w, e) && |w.log| <= i < |Step(w, e).log|
    ensures MomentOK(w, StepOp(e), i - |w.log| + 1, Step(w, e).log[i])
  {
    TaskIsReal(w);
    GrantMoments(w, e, i);
    HeldIsStored(w);
    GrantIsOK(w, e, i - |w.log| + 1, Step(w, e).log[i]);
  }

  lemma GrantIsOK(w: World, e: StepEnv, n: nat, m: Moment)
    requires Inv(w) && Agrees(w) && Grants(w, e) && IsGrantMoment(w, e.permit.value.value, n, m) && n >= 1
    requires StoredPermit(w.disk) == PermitRead(w.mem.permit)
    ensures MomentOK(w, StepOp(e), n, m)
  {
  }

  lemma OtherMoment(w: World, op: Op, i: nat)
    requires Inv(w) && Agrees(w) && |w.log| <= i < |Perform(w, op).log|
    requires op.StepOp? ==> !Grants(w, op.env) && !Attempts(w, op.env)
    ensures MomentOK(w, op, i - |w.log| + 1, Perform(w, op).log[i])
  {
    MemoryIsStored(w);
    OtherOpsArePlain(w, op);
    assert Plain(w, Perform(w, op).log[i]);
  }

  lemma EveryMoment(w: World, op: Op, i: nat)
    requires Inv(w) && Agrees(w) && |w.log| <= i < |Perform(w, op).log|
    ensures MomentOK(w, op, i - |w.log| + 1, Perform(w, op).log[i])
  {
    if op.StepOp? && Attempts(w, op.env) {
      AttemptMoment(w, op.env, i);
    } else if op.StepOp? && Grants(w, op.env) {
      GrantMoment(w, op.env, i);
    } else {
      OtherMoment(w, op, i);
    }
  }

  lemma HeldIsStored(w: World)
    requires Agrees(w)
    ensures StoredPermit(w.disk) == PermitRead(w.mem.permit)
  {
  }

  predicate Loses(w: World, op: Op, n: nat) {
    LosesStart(w, op, n) || LosesPermit(w, op, n)
  }

  /** An operation goes on after every moment at which a stop loses something. */
  lemma LossIsNotLast(w: World, op: Op, n: nat)
    requires Loses(w, op, n)
    ensures |w.log| + n < |Perform(w, op).log|
  {
    if LosesStart(w, op, n) {
      AttemptInParts(w, op.env);
    } else {
      GrantLength(w, op.env);
    }
  }

  // ------------------------------------------------------------------- a start that is due

  /** Task, execution and what was allowed and started are as before. */
  predicate Unmoved(w: World, m: Moment) {
    && m.disk.task == w.disk.task && m.disk.execution == w.disk.execution
    && m.tally == w.tally.(applied := m.tally.applied)
  }

  lemma EmitUnmoved(w: World, payload: ByteString, i: nat)
    requires |w.log| <= i < |Emit(w, payload).log|
    ensures Unmoved(w, Emit(w, payload).log[i])
  {
    EmitLeaves(w, w, payload);
    assert LeftAlone(w, Emit(w, payload).log[i]);
  }

  lemma ControlUnmoved(w: World, c: Control, i: nat)
    requires |w.log| <= i < |ApplyControl(w, c).log|
    ensures Unmoved(w, ApplyControl(w, c).log[i])
  {
  }

  /** The first moment of the operation is a successful start. */
  predicate StartsFirst(w: World, op: Op, v: World) {
    && op.StepOp? && op.env.started && |w.log| < |v.log|
    && v.log[|w.log|].call == StartOf(w, op.env) && v.log[|w.log|].tally == Counted(w.tally, StartOf(w, op.env))
  }

  lemma DueStep(w: World, e: StepEnv, i: nat)
    requires Due(w.mem) && |w.log| <= i < |Step(w, e).log|
    ensures StartsFirst(w, StepOp(e), Step(w, e)) || Unmoved(w, Step(w, e).log[i])
  {
    if e.prepared {
      AttemptInParts(w, e);
      StartMoments(w, e, if e.started then |w.log| else i);
      assert Step(w, e).log[|w.log|] == Start(w, e).log[|w.log|];
    } else {
      DispatchExecutes(w, e);
    }
  }

  /** A due start stays due until it is made. */
  lemma DueStays(w: World, op: Op, i: nat)
    requires Due(w.mem) && |w.log| <= i < |Perform(w, op).log|
    ensures StartsFirst(w, op, Perform(w, op)) || Unmoved(w, Perform(w, op).log[i])
  {
    match op
    case StepOp(env) => DueStep(w, env, i);
    case EmitOp(payload) => EmitUnmoved(w, payload, i);
    case ControlOp(control) => ControlUnmoved(w, control, i);
  }

  // --------------------------------------------------------------------- the two promises

  predicate WithinPermits(m: Moment) {
    m.tally.starts <= m.tally.permits
  }

  predicate HandsOverCurrent(m: Moment) {
    m.call.StartCalled? ==> m.tally.granted == Some(m.call.permit)
  }

  /** Starts never outnumber permits, and will not with the next start. */
  const BUDGET: Promise := Promise(WithinPermits, Paid, LosesStart)

  /** Every start is handed the last permit allowed, and the next one will be. */
  const CURRENT: Promise := Promise(HandsOverCurrent, IsGranted, LosesPermit)

  /** Over budget: either it shows already, or the next start will be one too many. */
  lemma OverBudgetStays(w: World, op: Op, v: World)
    requires Inv(w) && Agrees(w) && !Paid(w.disk, w.tally) && w.log <= v.log
    requires Due(w.mem) ==> forall i :: |w.log| <= i < |v.log| ==> StartsFirst(w, op, v) || Unmoved(w, v.log[i])
    ensures StaysBroken(BUDGET, w, v)
  {
    MemoryIsStored(w);
    forall k | |w.log| < k <= |v.log|
      ensures !KeptUpTo(BUDGET, v.log, k)
    {
      if w.tally.starts > w.tally.permits {
        assert v.log[|w.log| - 1] == w.log[|w.log| - 1] && !WithinPermits(v.log[|w.log| - 1]);
      } else if StartsFirst(w, op, v) {
        assert !WithinPermits(v.log[|w.log|]);
      } else {
        assert Unmoved(w, v.log[k - 1]);
      }
    }
  }

  /** Once the permit for the next start is lost, the start is made with another one. */
  lemma OtherPermitStays(w: World, op: Op, v: World)
    requires Inv(w) && Agrees(w) && !IsGranted(w.disk, w.tally) && w.log <= v.log
    requires Due(w.mem) ==> forall i :: |w.log| <= i < |v.log| ==> StartsFirst(w, op, v) || Unmoved(w, v.log[i])
    ensures StaysBroken(CURRENT, w, v)
  {
    MemoryIsStored(w);
    forall k | |w.log| < k <= |v.log|
      ensures !KeptUpTo(CURRENT, v.log, k)
    {
      if StartsFirst(w, op, v) {
        assert !HandsOverCurrent(v.log[|w.log|]);
      } else {
        assert Unmoved(w, v.log[k - 1]);
      }
    }
  }

  lemma OperationDecides(w: World, op: Op)
    requires Inv(w) && Agrees(w) && OpOK(op)
    ensures Decides(BUDGET, w, op, Perform(w, op)) && Decides(CURRENT, w, op, Perform(w, op))
  {
    var v := Perform(w, op);
    PerformKeeps(w, op);
    forall i | |w.log| <= i < |v.log|
      ensures MomentOK(w, op, i - |w.log| + 1, v.log[i])
      ensures Due(w.mem) ==> StartsFirst(w, op, v) || Unmoved(w, v.log[i])
    {
      EveryMoment(w, op, i);
      if Due(w.mem) {
        DueStays(w, op, i);
      }
    }
    forall n: nat | Loses(w, op, n)
      ensures |w.log| + n < |v.log|
    {
      LossIsNotLast(w, op, n);
    }
    MomentsDecide(w, op, v);
  }

  lemma MomentsDecide(w: World, op: Op, v: World)
    requires Inv(w) && Agrees(w) && w.log <= v.log
    requires forall i :: |w.log| <= i < |v.log| ==> MomentOK(w, op, i - |w.log| + 1, v.log[i])
    requires Due(w.mem) ==> forall i :: |w.log| <= i < |v.log| ==> StartsFirst(w, op, v) || Unmoved(w, v.log[i])
    requires forall n: nat :: Loses(w, op, n) ==> |w.log| + n < |v.log|
    ensures Decides(BUDGET, w, op, v) && Decides(CURRENT, w, op, v)
  {
    MemoryIsStored(w);
    LossesAreInside(w, op, v);
    if Paid(w.disk, w.tally) {
      forall i | |w.log| <= i < |v.log|
        ensures MomentKeeps(BUDGET, w, op, i - |w.log| + 1, v.log[i])
      {
        assert MomentOK(w, op, i - |w.log| + 1, v.log[i]);
      }
    } else {
      OverBudgetStays(w, op, v);
    }
    if IsGranted(w.disk, w.tally) {
      forall i | |w.log| <= i < |v.log|
        ensures MomentKeeps(CURRENT, w, op, i - |w.log| + 1, v.log[i])
      {
        assert MomentOK(w, op, i - |w.log| + 1, v.log[i]);
      }
    } else {
      OtherPermitStays(w, op, v);
    }
  }

  lemma LossesAreInside(w: World, op: Op, v: World)
    requires forall n: nat :: Loses(w, op, n) ==> |w.log| + n < |v.log|
    ensures BreaksInside(BUDGET, w, op, v) && BreaksInside(CURRENT, w, op, v)
  {
    forall n: nat | LosesStart(w, op, n) || LosesPermit(w, op, n)
      ensures 0 < n && |w.log| + n < |v.log|
    {
      assert Loses(w, op, n);
    }
  }

  lemma PermitsAreLaw()
    ensures Law(BUDGET) && Law(CURRENT)
  {
    forall w, op | Inv(w) && Agrees(w) && OpOK(op)
      ensures Decides(BUDGET, w, op, Perform(w, op)) && Decides(CURRENT, w, op, Perform(w, op))
    {
      OperationDecides(w, op);
    }
  }

  // ------------------------------------------------------------------------- main theorems

  /** A stop keeps a permit for every start if and only if it does not lose a start. */
  lemma CutKeepsPermitLeftIff(w: World, op: Op, n: nat)
    requires Inv(w) && Agrees(w) && PermitLeft(w) && OpOK(op)
    ensures PermitLeft(Act(w, DieIn(op, n))) <==> !LosesStart(w, op, n)
  {
    PermitsAreLaw();
    MemoryIsStored(w);
    StopIff(BUDGET, w, op, n);
    ActAgrees(w, DieIn(op, n));
    MemoryIsStored(Act(w, DieIn(op, n)));
  }

  /** A stop keeps the next start on the last permit allowed if and only if it does not lose
      that permit. */
  lemma CutKeepsPermitCurrentIff(w: World, op: Op, n: nat)
    requires Inv(w) && Agrees(w) && PermitCurrent(w) && OpOK(op)
    ensures PermitCurrent(Act(w, DieIn(op, n))) <==> !LosesPermit(w, op, n)
  {
    PermitsAreLaw();
    MemoryIsStored(w);
    StopIff(CURRENT, w, op, n);
    ActAgrees(w, DieIn(op, n));
    MemoryIsStored(Act(w, DieIn(op, n)));
  }

  lemma FirstKeepsPermits(max: nat)
    ensures Keeps(BUDGET, First(max)) && Keeps(CURRENT, First(max))
  {
  }

  /** In every history, with stops anywhere: the installs started have never outnumbered the
      permits allowed, and one still to come has a permit left, if and only if no stop fell
      between a start on the last permit and its record. */
  lemma StartsWithinPermitsIff(max: nat, actions: seq<Action>)
    requires ActionsOK(actions)
    ensures Keeps(BUDGET, History(First(max), actions)) <==> NeverBreaks(BUDGET, First(max), actions)
  {
    PermitsAreLaw();
    FirstKeepsPermits(max);
    KeptIff(BUDGET, max, actions);
  }

  /** In particular, with stops only between operations they never do. */
  lemma StartsNeverOutnumberPermits(max: nat, actions: seq<Action>, i: nat)
    requires BetweenOnly(actions) && i < |History(First(max), actions).log|
    ensures var t := History(First(max), actions).log[i].tally; t.starts <= t.permits
  {
    BetweenBreaksNothing(BUDGET, First(max), actions);
    StartsWithinPermitsIff(max, actions);
    assert WithinPermits(History(First(max), actions).log[i]);
  }

  /** In every history, with stops anywhere: every start was handed the last permit allowed,
      and one still to come will be, if and only if no stop fell between the state and the
      permit of a new execution that says something else. */
  lemma StartsOnLastPermitIff(max: nat, actions: seq<Action>)
    requires ActionsOK(actions)
    ensures Keeps(CURRENT, History(First(max), actions)) <==> NeverBreaks(CURRENT, First(max), actions)
  {
    PermitsAreLaw();
    FirstKeepsPermits(max);
    KeptIff(CURRENT, max, actions);
  }

  /** In particular, every start is handed the last permit allowed as long as there is no such
      stop. */
  lemma StartUsesLastPermit(max: nat, actions: seq<Action>, i: nat)
    requires ActionsOK(actions) && NeverBreaks(CURRENT, First(max), actions)
    requires var log := History(First(max), actions).log; i < |log| && log[i].call.StartCalled?
    ensures var m := History(First(max), actions).log[i]; m.tally.granted == Some(m.call.permit)
  {
    StartsOnLastPermitIff(max, actions);
    assert HandsOverCurrent(History(First(max), actions).log[i]);
  }
}
