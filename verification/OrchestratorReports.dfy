/** The final sequence number reported: exactly when it is the last one handed out. */
module OrchestratorReports {
  import opened Bytes
  import opened OrchestratorState
  import opened OrchestratorSpec
  import opened OrchestratorSegments
  import opened OrchestratorInvariants
  import opened OrchestratorHistory
  import opened OrchestratorBoundaries
  import opened OrchestratorPermits

  // ------------------------------------------------------------- what sending does to the watermark

  /** Sending leaves the later events alone, and the watermark is the old one or an event's. */
  lemma {:induction false} SendUpToBounds(w: World, e: StepEnv, upTo: nat)
    requires Inv(w) && upTo <= w.mem.next
    ensures var v := SendUpTo(w, e, upTo).0;
            && w.mem.accepted <= v.mem.accepted
            && (v.mem.accepted == w.mem.accepted || v.mem.accepted < upTo)
            && forall s :: s >= upTo ==> (s in v.disk.events <==> s in w.disk.events)
                                         && (s in w.disk.events ==> v.disk.events[s] == w.disk.events[s])
    decreases upTo
  {
    if upTo > 1 {
      SendUpToBounds(w, e, upTo - 1);
      SendUpToKeeps(w, e, upTo - 1);
      EventIsThere(SendUpTo(w, e, upTo - 1).0, upTo - 1);
      SendOneBounds(SendUpTo(w, e, upTo - 1).0, e, upTo - 1);
    }
  }

  lemma EventIsThere(w: World, s: nat)
    requires Inv(w) && 1 <= s < w.mem.next
    ensures s in w.disk.events && w.disk.events[s].number == s
  {
  }

  lemma SendOneBounds(w: World, e: StepEnv, s: nat)
    requires s in w.disk.events && w.disk.events[s].number == s
    ensures var (v, again) := SendOne(w, e, s);
            && w.mem.accepted <= v.mem.accepted
            && (v.mem.accepted == w.mem.accepted || v.mem.accepted == s)
            && (forall k :: k != s ==> (k in v.disk.events <==> k in w.disk.events)
                                       && (k in w.disk.events ==> v.disk.events[k] == w.disk.events[k]))
            && (!again && Unsettled(w.disk.events, s) ==> v.mem.accepted == Later(w.mem.accepted, s))
            && (!Unsettled(w.disk.events, s) ==> v.mem.accepted == w.mem.accepted)
  {
  }

  /** The event has a payload and is not acknowledged yet. */
  predicate Unsettled(events: map<nat, EventRec>, s: nat) {
    s in events && events[s].payload != [] && events[s].status != Acked
  }

  /** What the reported number depends on, before anything is sent. */
  predicate LastWillCount(w: World) {
    var last := w.mem.next - 1;
    w.mem.next == 1 || w.mem.accepted == last || (last >= 1 && Unsettled(w.disk.events, last))
  }

  lemma SendLast(w: World, e: StepEnv, last: nat)
    requires last >= 1
    ensures var v := SendUpTo(w, e, last).0;
            && SendUpTo(w, e, last + 1).0 == SendOne(v, e, last).0
            && (!SendUpTo(w, e, last + 1).1 ==> !SendOne(v, e, last).1)
  {
  }

  lemma BeforeLast(w: World, e: StepEnv, last: nat)
    requires Inv(w) && last + 1 == w.mem.next
    ensures var v := SendUpTo(w, e, last).0;
            && Inv(v) && v.mem.next == w.mem.next
            && (v.mem.accepted == w.mem.accepted || w.mem.accepted <= v.mem.accepted < last)
            && (Unsettled(v.disk.events, last) <==> Unsettled(w.disk.events, last))
  {
    SendUpToBounds(w, e, last);
    SendUpToKeeps(w, e, last);
  }

  /** The watermark after the last event, from the one before it. */
  lemma LastSettles(v: World, e: StepEnv, last: nat)
    requires Inv(v) && 1 <= last && last + 1 == v.mem.next && !SendOne(v, e, last).1
    ensures SendOne(v, e, last).0.mem.accepted
         == if Unsettled(v.disk.events, last) then Later(v.mem.accepted, last) else v.mem.accepted
  {
    EventIsThere(v, last);
    SendOneBounds(v, e, last);
  }

  lemma LastCountsIff(w: World, before: nat, after: nat, last: nat)
    requires last >= 1 && last + 1 == w.mem.next && w.mem.accepted < w.mem.next
    requires before == w.mem.accepted || w.mem.accepted <= before < last
    requires after == if Unsettled(w.disk.events, last) then Later(before, last) else before
    ensures after == last <==> LastWillCount(w)
  {
  }

  /** With nothing left to send again, the watermark ends at the last number if and only if
      there is no event, it was there already, or the last event is still to be settled. */
  lemma WatermarkIsLastIff(w: World, e: StepEnv, last: nat)
    requires Inv(w) && last + 1 == w.mem.next && !SendUpTo(w, e, last + 1).1
    ensures SendUpTo(w, e, last + 1).0.mem.accepted == last <==> LastWillCount(w)
  {
    if last >= 1 {
      var v := SendUpTo(w, e, last).0;
      BeforeLast(w, e, last);
      SendLast(w, e, last);
      LastSettles(v, e, last);
      LastCountsIff(w, v.mem.accepted, SendOne(v, e, last).0.mem.accepted, last);
    } else {
      assert SendUpTo(w, e, 1) == (w, false);
    }
  }

  // ----------------------------------------------------------------------- reports of a step

  predicate NamesLast(m: Moment) {
    m.call.FinalReported? && m.call.finalSeq == MetaOf(m.disk.meta).next - 1
  }

  /** The report made after the events have been sent in `u`. */
  predicate IsReport(u: World, e: StepEnv, m: Moment) {
    && !SendUpTo(u, e, u.mem.next).1
    && m.call == ReportOf(SentAll(u, e).mem) && m.disk == SentAll(u, e).disk
  }

  lemma SentAllOutbox(u: World, e: StepEnv, covered: bool)
    requires Sending(u, covered)
    ensures var v, w1 := SentAll(u, e), SendUpTo(u, e, u.mem.next).0;
            && MetaOf(v.disk.meta).next == u.mem.next >= 1 && v.disk.events == w1.disk.events
            && v.mem.accepted == w1.mem.accepted
  {
    SentAllSteady(u, e, covered);
  }

  lemma ReportNames(u: World, e: StepEnv, m: Moment, covered: bool)
    requires Sending(u, covered) && IsReport(u, e, m)
    ensures NamesLast(m) <==> LastWillCount(u)
    ensures MetaOf(m.disk.meta).next == u.mem.next >= 1
    ensures m.disk.events == SendUpTo(u, e, u.mem.next).0.disk.events
  {
    SentAllOutbox(u, e, covered);
    var last := u.mem.next - 1;
    assert last + 1 == u.mem.next;
    WatermarkIsLastIff(u, e, last);
  }

  /** Only after the events have been sent is anything reported. */
  lemma SendingReports(w: World, e: StepEnv, i: nat)
    requires CountersOK(w) && !NotYetStarted(w.mem.ex) && |w.log| <= i < |SendEvents(w, e).log|
    requires SendEvents(w, e).log[i].call.FinalReported?
    ensures IsReport(w, e, SendEvents(w, e).log[i])
  {
    SendEventsInParts(w, e);
    SentAllWrites(w, e);
    var w1 := SentAll(w, e);
    FinalizeWrites(w1, e);
    FinalizeReports(w1, e);
    if i < |w1.log| {
      assert SendEvents(w, e).log[i] == w1.log[i];
      WritesReportNothing(w, w1, i);
    } else if i > |w1.log| {
      WritesReportNothing(Say(w1, ReportOf(w1.mem)), Finalize(w1, e), i);
    }
  }

  lemma WritesReportNothing(w: World, v: World, i: nat)
    requires Writes(w, v) && |w.log| <= i < |v.log|
    ensures !v.log[i].call.FinalReported?
  {
    assert IsWrite(w, v.log[i]);
  }

  lemma StartReportsNothing(w: World, e: StepEnv, i: nat)
    requires |w.log| <= i < |Start(w, e).log|
    ensures !Start(w, e).log[i].call.FinalReported?
  {
    var w0 := Say(w, StartOf(w, e));
    EmitAllWrites(w0, e.emitted);
    if i > |w.log| {
      WritesReportNothing(w0, Start(w, e), i);
    } else {
      assert Start(w, e).log[i] == w0.log[i];
    }
  }

  lemma StartedReports(w: World, e: StepEnv, i: nat)
    requires Inv(w) && Agrees(w) && w.mem.vt == Executing && NotYetStarted(w.mem.ex) && e.prepared && e.started
    requires |w.log| <= i < |Execute(w, e).log| && Execute(w, e).log[i].call.FinalReported?
    ensures IsReport(SendingWorld(w, e), e, Execute(w, e).log[i])
  {
    var w1, w3 := Start(w, e), SendingWorld(w, e);
    StartedIsSending(w, e, false);
    StartLog(w, e);
    SendingGoesOn(w3, e);
    if i < |w1.log| {
      assert Execute(w, e).log[i] == w1.log[i];
      StartReportsNothing(w, e, i);
    } else if i < |w3.log| {
      assert Execute(w, e).log[i] == w3.log[i];
      RecordReportsNothing(w, e, i);
    } else {
      SendingReports(w3, e, i);
    }
  }

  lemma RecordReportsNothing(w: World, e: StepEnv, i: nat)
    requires |Start(w, e).log| <= i < |RecordStart(Start(w, e)).log|
    ensures !RecordStart(Start(w, e)).log[i].call.FinalReported?
  {
    StartLog(w, e);
  }

  lemma StartLog(w: World, e: StepEnv)
    ensures var w1, w3 := Start(w, e), RecordStart(Start(w, e));
            && w.log <= w1.log <= w3.log && |w3.log| == |w1.log| + 2
            && w3.log[|w1.log|].call == w3.log[|w1.log| + 1].call == Wrote
            && !NotYetStarted(w3.mem.ex)
  {
    EmitAllWrites(Say(w, StartOf(w, e)), e.emitted);
  }

  lemma SendingGoesOn(w: World, e: StepEnv)
    requires !NotYetStarted(w.mem.ex)
    ensures w.log <= SendEvents(w, e).log
  {
    SendEventsInParts(w, e);
    SentAllWrites(w, e);
    FinalizeWrites(SentAll(w, e), e);
  }

  lemma RequestReportsNothing(w: World, e: StepEnv, i: nat)
    requires |w.log| <= i < |RequestPermit(w, e).log|
    ensures !RequestPermit(w, e).log[i].call.FinalReported?
  {
  }

  /** A report is made by a step of an execution, from the world in which it sends. */
  lemma StepReports(w: World, e: StepEnv, i: nat)
    requires Inv(w) && Agrees(w) && |w.log| <= i < |Step(w, e).log| && Step(w, e).log[i].call.FinalReported?
    ensures Settle(w).mem.vt == Executing
    ensures IsReport(SendingWorld(Settle(w), e), e, Step(w, e).log[i])
  {
    var v := Settle(w);
    SettledSteady(w, false);
    if v.mem.vt == Executing {
      DispatchExecutes(v, e);
      ExecuteReports(v, e, i);
    } else if AwaitsPermit(v.mem.vt) {
      DispatchRequests(v, e);
      RequestReportsNothing(v, e, i);
    } else {
      PreparingStepWrites(v, e);
      WritesReportNothing(v, Dispatch(v, e), i);
    }
  }

  lemma ExecuteReports(v: World, e: StepEnv, i: nat)
    requires Inv(v) && v.mem.vt == Executing && (NotYetStarted(v.mem.ex) ==> Agrees(v))
    requires |v.log| <= i < |Execute(v, e).log| && Execute(v, e).log[i].call.FinalReported?
    ensures IsReport(SendingWorld(v, e), e, Execute(v, e).log[i])
  {
    if !NotYetStarted(v.mem.ex) {
      SendingReports(v, e, i);
    } else if e.started {
      StartedReports(v, e, i);
    } else {
      StartReportsNothing(v, e, i);
    }
  }

  lemma SendsFrom(w: World, e: StepEnv, covered: bool)
    requires Inv(w) && Steady(w, covered) && Settle(w).mem.vt == Executing
    ensures Sending(SendingWorld(Settle(w), e), covered)
  {
    SettledSteady(w, covered);
    if NotYetStarted(Settle(w).mem.ex) {
      StartedIsSending(Settle(w), e, covered);
    }
  }

  /** Nothing but a step reports. */
  lemma OnlyStepsReport(w: World, op: Op, i: nat)
    requires !op.StepOp? && |w.log| <= i < |Perform(w, op).log|
    ensures !Perform(w, op).log[i].call.FinalReported?
  {
    if op.EmitOp? {
      EmitWrites(w, op.payload);
      WritesReportNothing(w, Emit(w, op.payload), i);
    }
  }

  // ------------------------------------------------------------- seen before the step begins

  /** From `w` to `v` the outbox took the first `n` payloads. */
  predicate TookPayloads(w: World, v: World, payloads: seq<ByteString>, n: nat) {
    && n <= |payloads|
    && v.mem.next == w.mem.next + n && v.mem.accepted == w.mem.accepted
    && (n == 0 ==> v.disk.events == w.disk.events)
    && (n > 0 ==> v.mem.next - 1 in v.disk.events
                  && v.disk.events[v.mem.next - 1] == EventRec(v.mem.next - 1, payloads[n - 1], Pending))
  }

  lemma EmitTakes(w: World, v: World, payloads: seq<ByteString>, k: nat)
    requires v.mem.next == MetaOf(v.disk.meta).next && TookPayloads(w, v, payloads, k) && !OutboxFull(v)
    requires k < |payloads|
    ensures TookPayloads(w, Emit(v, payloads[k]), payloads, k + 1)
  {
  }

  lemma RoomLeft(w: World, v: World, n: nat)
    requires MetaOf(w.disk.meta).next >= 1 && v.max == w.max
    requires MetaOf(v.disk.meta).next == MetaOf(w.disk.meta).next + Accepted(w, n)
    ensures OutboxFull(v) ==> Accepted(w, n + 1) == Accepted(w, n)
    ensures !OutboxFull(v) ==> Accepted(w, n) == n && Accepted(w, n + 1) == n + 1
  {
  }

  lemma TakesOneMore(w: World, v: World, payloads: seq<ByteString>, k: nat)
    requires MetaOf(w.disk.meta).next >= 1 && v.mem.next == MetaOf(v.disk.meta).next && v.max == w.max
    requires k < |payloads| && TookPayloads(w, v, payloads, Accepted(w, k))
    requires MetaOf(v.disk.meta).next == MetaOf(w.disk.meta).next + Accepted(w, k)
    ensures TookPayloads(w, Emit(v, payloads[k]), payloads, Accepted(w, k + 1))
  {
    RoomLeft(w, v, k);
    if !OutboxFull(v) {
      EmitTakes(w, v, payloads, k);
    }
  }

  lemma EmitAllOneMore(w: World, payloads: seq<ByteString>, k: nat)
    requires k < |payloads|
    ensures EmitAll(w, payloads[..k + 1]) == Emit(EmitAll(w, payloads[..k]), payloads[k])
  {
    assert payloads[..k + 1][..k] == payloads[..k];
  }

  lemma EmitAllCounts(w: World, payloads: seq<ByteString>)
    requires Inv(w)
    ensures var v := EmitAll(w, payloads);
            && v.mem.next == MetaOf(v.disk.meta).next && v.max == w.max
            && MetaOf(v.disk.meta).next == MetaOf(w.disk.meta).next + Accepted(w, |payloads|)
    ensures MetaOf(w.disk.meta).next >= 1
  {
    EmitAllKeeps(w, payloads);
    EmittedMoments(w, payloads);
  }

  /** The last event there will be when the step sends, if starting emits any. */
  lemma {:induction false} EmittedLast(w: World, payloads: seq<ByteString>, k: nat)
    requires Inv(w) && k <= |payloads|
    ensures TookPayloads(w, EmitAll(w, payloads[..k]), payloads, Accepted(w, k))
    decreases k
  {
    if k > 0 {
      EmittedLast(w, payloads, k - 1);
      EmitAllCounts(w, payloads[..k - 1]);
      TakesOneMore(w, EmitAll(w, payloads[..k - 1]), payloads, k - 1);
      EmitAllOneMore(w, payloads, k - 1);
    }
  }

  /** Whether the last event counts, from what is known before the step: the payloads a start
      will hand over and there is room for, or else the outbox as it is. */
  predicate LastCounts(w: World, e: StepEnv) {
    var n := Accepted(w, |e.emitted|);
    if NotYetStarted(w.mem.ex) && n > 0 then e.emitted[n - 1] != [] else LastWillCount(w)
  }

  lemma RecordingChangesNothing(w: World)
    ensures var v := RecordStart(w);
            v.mem.next == w.mem.next && v.mem.accepted == w.mem.accepted && v.disk.events == w.disk.events
  {
  }

  lemma TakenCounts(w: World, v: World, payloads: seq<ByteString>, n: nat)
    requires WatermarkOK(w.mem.accepted, w.mem.next, w.disk.events) && w.mem.next >= 1 && TookPayloads(w, v, payloads, n)
    ensures LastWillCount(v) <==> if n > 0 then payloads[n - 1] != [] else LastWillCount(w)
  {
  }

  lemma StartCounts(w: World, e: StepEnv)
    requires Inv(w) && w.mem.vt == Executing
    ensures var n := Accepted(w, |e.emitted|);
            LastWillCount(Start(w, e)) <==> if n > 0 then e.emitted[n - 1] != [] else LastWillCount(w)
  {
    StartKeeps(w, e);
    EmittedLast(Say(w, StartOf(w, e)), e.emitted, |e.emitted|);
    assert e.emitted[..|e.emitted|] == e.emitted;
    TakenCounts(Say(w, StartOf(w, e)), Start(w, e), e.emitted, Accepted(w, |e.emitted|));
  }

  lemma LastCountsBefore(w: World, e: StepEnv)
    requires Inv(w) && w.mem.vt == Executing
    ensures LastWillCount(SendingWorld(w, e)) <==> LastCounts(w, e)
  {
    if NotYetStarted(w.mem.ex) {
      StartCounts(w, e);
      RecordingChangesNothing(Start(w, e));
    }
  }

  // ------------------------------------------------------------------------ main theorems

  lemma ActLog(w: World, a: Action, i: nat)
    requires Inv(w) && !a.RestartNow? && OpOK(a.op) && |w.log| <= i < |Act(w, a).log|
    ensures i < |Perform(w, a.op).log| && Act(w, a).log[i] == Perform(w, a.op).log[i]
  {
    PerformKeeps(w, a.op);
  }

  /** In every history, with stops anywhere: the next action reports a final number only in a
      step, and the number is the last one handed out if and only if the last event counts:
      one that a start in this step emits, if it has a payload; else there is no event, or the
      watermark in memory is there already, or the last event has a payload and has not been
      acknowledged. */
  lemma FinalNumberIsLastIff(max: nat, actions: seq<Action>, a: Action, i: nat)
    requires ActionsOK(actions) && (a.RestartNow? || OpOK(a.op))
    requires var w := History(First(max), actions);
             |w.log| <= i < |Act(w, a).log| && Act(w, a).log[i].call.FinalReported?
    ensures var w := History(First(max), actions);
            && !a.RestartNow? && a.op.StepOp? && Settle(w).mem.vt == Executing
            && (NamesLast(Act(w, a).log[i]) <==> LastCounts(Settle(w), a.op.env))
  {
    FirstIsSound(max);
    FirstIsSteady(max);
    HistoryAgrees(First(max), actions);
    var w := History(First(max), actions);
    ActLog(w, a, i);
    if a.op.StepOp? {
      StepReports(w, a.op.env, i);
      SendsFrom(w, a.op.env, false);
      ReportNames(SendingWorld(Settle(w), a.op.env), a.op.env, Act(w, a).log[i], false);
      SettledSteady(w, false);
      LastCountsBefore(Settle(w), a.op.env);
    } else {
      OnlyStepsReport(w, a.op, i);
    }
  }

  /** Every moment of a history belongs to one of its actions. */
  lemma {:induction false} MomentHasAction(w: World, actions: seq<Action>, i: nat) returns (k: nat)
    requires Inv(w) && ActionsOK(actions) && |w.log| <= i < |History(w, actions).log|
    ensures k < |actions|
    ensures IsMomentOf(w, actions, i, k)
    decreases |actions|
  {
    var v, rest := Act(w, actions[0]), actions[1..];
    ActKeeps(w, actions[0]);
    if i < |v.log| {
      HistoryIsSound(v, rest);
      FirstMoment(w, actions, i);
      return 0;
    }
    var j := MomentHasAction(v, rest, i);
    LaterMoment(w, actions, i, j);
    k := j + 1;
  }

  lemma FirstMoment(w: World, actions: seq<Action>, i: nat)
    requires actions != [] && |w.log| <= i < |Act(w, actions[0]).log|
    requires Act(w, actions[0]).log <= History(Act(w, actions[0]), actions[1..]).log
    ensures IsMomentOf(w, actions, i, 0)
  {
    HistoryStarts(w, actions);
  }

  lemma LaterMoment(w: World, actions: seq<Action>, i: nat, j: nat)
    requires actions != [] && j < |actions| - 1 && IsMomentOf(Act(w, actions[0]), actions[1..], i, j)
    ensures IsMomentOf(w, actions, i, j + 1)
  {
    var some := actions[..j + 1];
    assert some[0] == actions[0] && some[1..] == actions[1..][..j];
    HistoryStarts(w, some);
    HistoryStarts(w, actions);
  }

  predicate IsMomentOf(w: World, actions: seq<Action>, i: nat, k: nat)
    requires k < |actions|
  {
    var v := History(w, actions[..k]);
    && |v.log| <= i < |Act(v, actions[k]).log|
    && i < |History(w, actions).log| && Act(v, actions[k]).log[i] == History(w, actions).log[i]
  }

  /** The reported number is the last one exactly when the last event has a payload. */
  predicate FinalExact(d: Disk, finalSeq: nat) {
    var next := MetaOf(d.meta).next;
    next >= 1 && (finalSeq == next - 1 <==> next == 1 || (next - 1 in d.events && d.events[next - 1].payload != []))
  }

  lemma SentEventStays(u: World, e: StepEnv, s: nat)
    requires Inv(u) && 1 <= s < u.mem.next
    ensures var events := SendUpTo(u, e, u.mem.next).0.disk.events;
            s in u.disk.events && s in events && events[s].payload == u.disk.events[s].payload
  {
    SendUpToKeeps(u, e, u.mem.next);
    var v := SendUpTo(u, e, u.mem.next).0;
    OutboxGrewSince(u, v);
  }

  lemma LastCountsIfCovered(u: World)
    requires WatermarkOK(u.mem.accepted, u.mem.next, u.disk.events)
    requires Covered(u.disk.events, u.mem.next, u.mem.accepted)
    requires u.mem.next > 1 && u.mem.next - 1 in u.disk.events
    ensures LastWillCount(u) <==> u.disk.events[u.mem.next - 1].payload != []
  {
  }

  lemma ReportIsExact(u: World, e: StepEnv, m: Moment)
    requires Sending(u, true) && IsReport(u, e, m)
    ensures FinalExact(m.disk, m.call.finalSeq)
  {
    ReportNames(u, e, m, true);
    if u.mem.next > 1 {
      LastSent(u, e, u.mem.next - 1);
    }
  }

  lemma LastSent(u: World, e: StepEnv, last: nat)
    requires Sending(u, true) && last >= 1 && last + 1 == u.mem.next
    ensures var events := SendUpTo(u, e, u.mem.next).0.disk.events;
            last in events && (LastWillCount(u) <==> events[last].payload != [])
  {
    SentEventStays(u, e, last);
    LastCountsIfCovered(u);
  }

  lemma CoveredReport(w: World, a: Action, i: nat)
    requires Inv(w) && Steady(w, true) && (a.RestartNow? || OpOK(a.op))
    requires |w.log| <= i < |Act(w, a).log| && Act(w, a).log[i].call.FinalReported?
    ensures FinalExact(Act(w, a).log[i].disk, Act(w, a).log[i].call.finalSeq)
  {
    ActLog(w, a, i);
    if a.op.StepOp? {
      var e := a.op.env;
      StepReports(w, e, i);
      SendsFrom(w, e, true);
      ReportIsExact(SendingWorld(Settle(w), e), e, Act(w, a).log[i]);
    } else {
      OnlyStepsReport(w, a.op, i);
    }
  }

  /** With stops only between operations, the final number reported is the last one handed out
      if and only if there is no event or the last event has a payload. */
  lemma FinalNumberIsLast(max: nat, actions: seq<Action>, i: nat)
    requires BetweenOnly(actions)
    requires var log := History(First(max), actions).log; i < |log| && log[i].call.FinalReported?
    ensures var m := History(First(max), actions).log[i]; FinalExact(m.disk, m.call.finalSeq)
  {
    FirstIsSound(max);
    FirstIsSteady(max);
    NothingReportedAtFirst(max, actions);
    ReportsAreExact(First(max), actions, i);
  }

  lemma NothingReportedAtFirst(max: nat, actions: seq<Action>)
    requires ActionsOK(actions)
    ensures |First(max).log| == 1 <= |History(First(max), actions).log|
    ensures History(First(max), actions).log[0].call == Boot
  {
    FirstIsSound(max);
    HistoryIsSound(First(max), actions);
    assert History(First(max), actions).log[0] == First(max).log[0];
  }

  lemma ReportsAreExact(w: World, actions: seq<Action>, i: nat)
    requires Inv(w) && Steady(w, true) && BetweenOnly(actions)
    requires |w.log| <= i < |History(w, actions).log| && History(w, actions).log[i].call.FinalReported?
    ensures var m := History(w, actions).log[i]; FinalExact(m.disk, m.call.finalSeq)
  {
    var k := MomentHasAction(w, actions, i);
    HistoryStaysCovered(w, actions[..k]);
    CoveredReport(History(w, actions[..k]), actions[k], i);
  }
}
