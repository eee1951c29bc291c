/** What emitting and sending do to each event of the outbox, told number by number. */
module OrchestratorSending {
  import opened Wrappers
  import opened Bytes
  import opened OrchestratorState
  import opened OrchestratorSpec
  import opened OrchestratorSegments
  import opened OrchestratorInvariants
  import opened OrchestratorHistory
  import opened OrchestratorBoundaries
  import opened OrchestratorPermits
  import opened OrchestratorRetries
  import opened OrchestratorTurns
  import opened OrchestratorResults

  // ------------------------------------------------------------------------------ emitting

  /** Two moments: the record of a pending event under the next number, then that number. */
  predicate Emitted(w: World, v: World, payload: ByteString) {
    var n, next := |w.log|, MetaOf(w.disk.meta).next;
    && |v.log| == n + 2 && w.log <= v.log
    && v.log[n].disk == w.disk.(events := w.disk.events[next := EventRec(next, payload, Pending)])
    && v.log[n + 1].disk == v.disk == v.log[n].disk.(meta := Some(MetaRec(next + 1, MetaOf(w.disk.meta).accepted)))
  }

  /** In every history an emit is refused, with nothing done, if and only if the next number has
      passed the bound; any other stores the event as pending under the next number. */
  lemma EmitIsRefusedIff(max: nat, actions: seq<Action>, payload: ByteString)
    requires ActionsOK(actions)
    ensures var w := History(First(max), actions);
            && 1 <= MetaOf(w.disk.meta).next <= max + 1
            && (MetaOf(w.disk.meta).next == max + 1 ==> Emit(w, payload) == w)
            && (MetaOf(w.disk.meta).next <= max ==> Emitted(w, Emit(w, payload), payload))
  {
    FirstIsSound(max);
    HistoryIsSound(First(max), actions);
    EmitsOne(History(First(max), actions), payload);
  }

  lemma EmitsOne(w: World, payload: ByteString)
    requires Inv(w)
    ensures MetaOf(w.disk.meta).next == w.max + 1 ==> Emit(w, payload) == w
    ensures MetaOf(w.disk.meta).next <= w.max ==> Emitted(w, Emit(w, payload), payload)
  {
  }

  // ------------------------------------------------------------------------------- sending

  /** The cloud is told about this event and accepts it. */
  predicate Accepts(event: EventRec, e: StepEnv, s: nat) {
    event.status != Acked && event.payload != [] && e.report(s) == Some(EventAccepted)
  }

  /** The cloud is told about this event and does not accept it. */
  predicate Refuses(event: EventRec, e: StepEnv, s: nat) {
    event.status != Acked && event.payload != [] && e.report(s) != Some(EventAccepted)
  }

  /** What sending makes of an event: acknowledged if it is accepted, marked as sent if it has no
      payload, and otherwise as it was. */
  predicate SentAs(event: EventRec, e: StepEnv, s: nat, after: EventRec) {
    && after.number == event.number && after.payload == event.payload
    && (Accepts(event, e, s) ==> after.status == Acked)
    && (event.status != Acked && event.payload == [] ==> after.status == Sent)
    && (event.status == Acked || Refuses(event, e, s) ==> after.status == event.status)
  }

  predicate AcceptedBelow(events: map<nat, EventRec>, e: StepEnv, upTo: nat, s: nat) {
    1 <= s < upTo && s in events && Accepts(events[s], e, s)
  }

  /** The numbers 1 up to `upTo` have been sent, and no other event is touched; `top` is the
      largest number accepted now, or the one before. */
  ghost predicate SentBelow(before: map<nat, EventRec>, e: StepEnv, upTo: nat, after: map<nat, EventRec>) {
    && after.Keys == before.Keys
    && forall s: nat :: s in before ==>
         if 1 <= s < upTo then SentAs(before[s], e, s, after[s]) else after[s] == before[s]
  }

  ghost predicate TopAccepted(events: map<nat, EventRec>, e: StepEnv, upTo: nat, accepted: nat, top: nat) {
    && accepted <= top && (top == accepted || AcceptedBelow(events, e, upTo, top))
    && forall s: nat :: AcceptedBelow(events, e, upTo, s) ==> s <= top
  }

  ghost predicate AnyRefused(events: map<nat, EventRec>, e: StepEnv, upTo: nat) {
    exists s: nat :: 1 <= s < upTo && s in events && Refuses(events[s], e, s)
  }

  lemma AcceptedStep(events: map<nat, EventRec>, e: StepEnv, s: nat, x: nat)
    requires s >= 1 && s in events
    ensures AcceptedBelow(events, e, s + 1, x) <==> AcceptedBelow(events, e, s, x) || (x == s && Accepts(events[s], e, s))
  {
  }

  lemma TopStep(events: map<nat, EventRec>, e: StepEnv, s: nat, accepted: nat, top: nat)
    requires s >= 1 && s in events && TopAccepted(events, e, s, accepted, top)
    ensures TopAccepted(events, e, s + 1, accepted, if Accepts(events[s], e, s) && s > top then s else top)
  {
    var larger := if Accepts(events[s], e, s) && s > top then s else top;
    AcceptedStep(events, e, s, larger);
    var next := s + 1;
    forall x: nat
      ensures AcceptedBelow(events, e, next, x) ==> x <= larger
    {
      AcceptedStep(events, e, s, x);
    }
  }

  lemma OneIsSent(w: World, v: World, e: StepEnv, s: nat)
    requires s >= 1 && s in w.disk.events && w.disk.events[s].number == s
    requires SentBelow(w.disk.events, e, s, v.disk.events)
    requires TopAccepted(w.disk.events, e, s, w.mem.accepted, v.mem.accepted)
    ensures var u := SendOne(v, e, s).0;
            && SentBelow(w.disk.events, e, s + 1, u.disk.events)
            && TopAccepted(w.disk.events, e, s + 1, w.mem.accepted, u.mem.accepted)
    ensures SendOne(v, e, s).1 <==> Refuses(w.disk.events[s], e, s)
  {
    assert v.disk.events[s] == w.disk.events[s];
    TopStep(w.disk.events, e, s, w.mem.accepted, v.mem.accepted);
  }

  lemma RefusedStep(events: map<nat, EventRec>, e: StepEnv, s: nat)
    requires s >= 1 && s in events
    ensures AnyRefused(events, e, s + 1) <==> AnyRefused(events, e, s) || Refuses(events[s], e, s)
  {
  }

  lemma {:induction false} SentUpToPointwise(w: World, e: StepEnv, upTo: nat)
    requires forall s: nat :: 1 <= s < upTo ==> s in w.disk.events && w.disk.events[s].number == s
    ensures var (v, again) := SendUpTo(w, e, upTo);
            && SentBelow(w.disk.events, e, upTo, v.disk.events)
            && TopAccepted(w.disk.events, e, upTo, w.mem.accepted, v.mem.accepted)
            && (again <==> AnyRefused(w.disk.events, e, upTo))
    decreases upTo
  {
    if upTo > 1 {
      SentUpToPointwise(w, e, upTo - 1);
      OneIsSent(w, SendUpTo(w, e, upTo - 1).0, e, upTo - 1);
      RefusedStep(w.disk.events, e, upTo - 1);
    }
  }

  /** The next step sends: an execution that has begun, or a rollback. */
  predicate SendsNext(d: Disk) {
    TaskAt(d) == Some(RollbackPending) || (TaskAt(d) == Some(Executing) && Begun(RunAt(d)))
  }

  lemma SentAllPointwise(v: World, e: StepEnv)
    requires Inv(v) && CountersAgree(v.mem, v.disk.meta) && !NotYetStarted(v.mem.ex)
    ensures var u, next := SentAll(v, e), v.mem.next;
            && SentBelow(v.disk.events, e, next, u.disk.events)
            && TopAccepted(v.disk.events, e, next, v.mem.accepted, u.mem.accepted)
            && u.disk.meta == Some(MetaRec(next, u.mem.accepted))
            && (SendUpTo(v, e, MetaOf(v.disk.meta).next).1 <==> AnyRefused(v.disk.events, e, next))
  {
    SentUpToPointwise(v, e, v.mem.next);
    SendUpToKeeps(v, e, v.mem.next);
  }

  lemma FinalizeLeaves(u: World, e: StepEnv)
    requires u.disk.meta == Some(MetaRec(u.mem.next, u.mem.accepted))
    ensures Finalize(u, e).disk.events == u.disk.events && Finalize(u, e).disk.meta == u.disk.meta
    ensures |u.log| < |Finalize(u, e).log| && u.log <= Finalize(u, e).log
    ensures Finalize(u, e).log[|u.log|].call == ReportOf(u.mem)
    ensures forall i :: |u.log| < i < |Finalize(u, e).log| ==> Finalize(u, e).log[i].call == Wrote
  {
  }

  /** What a step that sends comes to, for all events at once. */
  ghost predicate Tells(w: World, e: StepEnv, v: World) {
    var events, meta, after := w.disk.events, MetaOf(w.disk.meta), MetaOf(v.disk.meta);
    && SentBelow(events, e, meta.next, v.disk.events)
    && after.next == meta.next && TopAccepted(events, e, meta.next, meta.accepted, after.accepted)
    && ((exists i :: |w.log| <= i < |v.log| && v.log[i].call.FinalReported?) <==> !AnyRefused(events, e, meta.next))
    && (forall i :: |w.log| <= i < |v.log| && v.log[i].call.FinalReported? ==> v.log[i].call.finalSeq == after.accepted)
  }

  lemma SendEventsTells(v: World, e: StepEnv)
    requires Inv(v) && CountersAgree(v.mem, v.disk.meta) && !NotYetStarted(v.mem.ex)
    ensures Tells(v, e, SendEvents(v, e))
  {
    var u, n := SentAll(v, e), |SentAll(v, e).log|;
    SentAllPointwise(v, e);
    SentAllWrites(v, e);
    SendEventsInParts(v, e);
    FinalizeLeaves(u, e);
    var log := SendEvents(v, e).log;
    forall i | |v.log| <= i < |log|
      ensures log[i].call.FinalReported? ==> i == n && log[i].call == ReportOf(u.mem)
    {
      if i < n {
        assert log[i] == u.log[i] && IsWrite(v, u.log[i]);
      }
    }
    if n < |log| {
      assert log[n].call.FinalReported?;
    }
  }

  lemma SendsNextIsReporting(w: World)
    requires Inv(w) && Agrees(w) && SendsNext(w.disk)
    ensures Reporting(w.mem)
    ensures var v := Settle(w); Inv(v) && CountersAgree(v.mem, v.disk.meta) && v.mem.vt == Executing && !NotYetStarted(v.mem.ex)
  {
    SettledSteady(w, false);
  }

  /** In every history: a step of an execution that has begun, or of a rollback, makes of each
      event below the next number what the cloud's answer to it says, and of no other event
      anything; it stores the largest number accepted; and it reports that number, as the final
      one, if and only if no event with a payload was refused. */
  lemma SendingTells(max: nat, actions: seq<Action>, e: StepEnv)
    requires ActionsOK(actions) && SendsNext(History(First(max), actions).disk)
    ensures Tells(History(First(max), actions), e, Step(History(First(max), actions), e))
  {
    FirstIsSound(max);
    FirstIsSteady(max);
    HistoryAgrees(First(max), actions);
    StepTells(History(First(max), actions), e);
  }

  lemma StepTells(w: World, e: StepEnv)
    requires Inv(w) && Agrees(w) && SendsNext(w.disk)
    ensures Tells(w, e, Step(w, e))
  {
    SendsNextIsReporting(w);
    DispatchExecutes(Settle(w), e);
    assert Step(w, e) == SendEvents(Settle(w), e);
    SendEventsTells(Settle(w), e);
    assert Tells(Settle(w), e, SendEvents(Settle(w), e));
  }
}
