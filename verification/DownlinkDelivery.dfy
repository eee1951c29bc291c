/** What becomes of the events that arrive, told from the steps alone. */
module DownlinkDelivery {
  import opened TransportMessages
  import opened DownlinkQueue

  // ------------------------------------------------------------------- which events get in

  /** An event for this service and protocol that has not expired and is not too long. */
  ghost predicate Welcome(m: Message, maxPayload: nat, now: int) {
    && m.kind == Event && m.service == "vehicle.fota" && m.protocolVersion == "fota-v1"
    && |m.payload| <= maxPayload
    && !(0 < m.expireAtMs < now)
  }

  /** What a step brings, if it may. */
  ghost function Arriving(step: Step): seq<Message> {
    if step.Arrive? && Welcome(step.m, step.maxPayload, step.now) then [step.m] else []
  }

  /** The welcome messages that arrive before the first order to refuse calls. */
  ghost function Arrivals(steps: seq<Step>): (ms: seq<Message>)
  {
    if steps == [] || steps[0].RefuseCalls? then [] else Arriving(steps[0]) + Arrivals(steps[1..])
  }

  lemma WelcomeIsValid(m: Message, maxPayload: nat, now: int)
    ensures Valid(m, maxPayload, now) <==> Welcome(m, maxPayload, now)
  {
  }

  lemma StepArrives(s: State, step: Step)
    ensures var next := Perform(s, step);
            && (next.stopping <==> s.stopping || step.RefuseCalls?)
            && next.arrived == if s.stopping then s.arrived else s.arrived + Arriving(step)
  {
    if step.Arrive? {
      WelcomeIsValid(step.m, step.maxPayload, step.now);
    }
  }

  lemma Regroup(a: seq<Message>, b: seq<Message>, c: seq<Message>)
    ensures a + b + c == a + (b + c) && a + [] == a
  {
  }

  lemma {:induction false} StoppedArrives(s: State, steps: seq<Step>)
    requires s.stopping
    ensures Run(s, steps).arrived == s.arrived
    decreases |steps|
  {
    if steps != [] {
      StepArrives(s, steps[0]);
      StoppedArrives(Perform(s, steps[0]), steps[1..]);
    }
  }

  lemma {:induction false} RunArrives(s: State, steps: seq<Step>)
    requires !s.stopping
    ensures Run(s, steps).arrived == s.arrived + Arrivals(steps)
    decreases |steps|
  {
    if steps != [] {
      var next, rest := Perform(s, steps[0]), steps[1..];
      StepArrives(s, steps[0]);
      Regroup(s.arrived, Arriving(steps[0]), Arrivals(rest));
      if steps[0].RefuseCalls? {
        StoppedArrives(next, rest);
      } else {
        RunArrives(next, rest);
      }
    }
  }

  /** Everything that arrived is in one place. */
  predicate Placed(s: State, arrived: seq<Message>) {
    multiset(s.checked) + multiset(s.queue) + multiset(s.taken) + multiset(s.dropped) + multiset(s.late)
    == multiset(arrived)
  }

  lemma FaithfulIsPlaced(capacity: nat, workers: nat, steps: seq<Step>)
    ensures var s := Run(Started(capacity, workers), steps); Placed(s, s.arrived)
  {
    var s := Run(Started(capacity, workers), steps);
    QueueIsFaithful(capacity, workers, steps);
    assert multiset(s.taken + s.queue) == multiset(s.taken) + multiset(s.queue);
  }

  lemma ArrivedIs(capacity: nat, workers: nat, steps: seq<Step>)
    ensures Run(Started(capacity, workers), steps).arrived == Arrivals(steps)
  {
    RunArrives(Started(capacity, workers), steps);
    assert [] + Arrivals(steps) == Arrivals(steps);
  }

  /** In every run, whatever is waiting for the lock, queued, taken, dropped or too late is a
      welcome message that arrived before the stop, and each of those is in one such place. */
  lemma OnlyArrivalsGetIn(capacity: nat, workers: nat, steps: seq<Step>)
    ensures Placed(Run(Started(capacity, workers), steps), Arrivals(steps))
  {
    ArrivedIs(capacity, workers, steps);
    FaithfulIsPlaced(capacity, workers, steps);
  }

  // --------------------------------------------------------------------- the two stop flags

  ghost predicate Refused(steps: seq<Step>) {
    exists i :: 0 <= i < |steps| && steps[i].RefuseCalls?
  }

  ghost predicate Closed(steps: seq<Step>) {
    exists i, j :: 0 <= i < j < |steps| && steps[i].RefuseCalls? && steps[j].StopQueue?
  }

  lemma {:induction false} RunStops(s: State, steps: seq<Step>)
    ensures Run(s, steps).stopping <==> s.stopping || Refused(steps)
    decreases |steps|
  {
    if steps != [] {
      StepArrives(s, steps[0]);
      RunStops(Perform(s, steps[0]), steps[1..]);
      RefusedStep(steps);
    }
  }

  lemma RefusedStep(steps: seq<Step>)
    requires steps != []
    ensures Refused(steps) <==> steps[0].RefuseCalls? || Refused(steps[1..])
  {
    if Refused(steps[1..]) {
      var i :| 0 <= i < |steps[1..]| && steps[1..][i].RefuseCalls?;
      assert steps[i + 1].RefuseCalls?;
    }
    if Refused(steps) && !steps[0].RefuseCalls? {
      var i :| 0 <= i < |steps| && steps[i].RefuseCalls?;
      assert steps[1..][i - 1].RefuseCalls?;
    }
  }

  lemma {:induction false} RunOn(s: State, steps: seq<Step>, step: Step)
    ensures Run(s, steps + [step]) == Perform(Run(s, steps), step)
    decreases |steps|
  {
    var all := steps + [step];
    if steps == [] {
      assert all == [step] && all[1..] == [] && Run(Perform(s, step), []) == Perform(s, step);
    } else {
      assert all[0] == steps[0] && all[1..] == steps[1..] + [step];
      RunOn(Perform(s, steps[0]), steps[1..], step);
    }
  }

  lemma ClosedStep(steps: seq<Step>, step: Step)
    ensures Closed(steps + [step]) <==> Closed(steps) || (Refused(steps) && step.StopQueue?)
  {
    var all := steps + [step];
    if Closed(steps) {
      var i, j :| 0 <= i < j < |steps| && steps[i].RefuseCalls? && steps[j].StopQueue?;
      assert all[i].RefuseCalls? && all[j].StopQueue?;
    }
    if Refused(steps) && step.StopQueue? {
      var i :| 0 <= i < |steps| && steps[i].RefuseCalls?;
      assert all[i].RefuseCalls? && all[|steps|].StopQueue?;
    }
    if Closed(all) {
      var i, j :| 0 <= i < j < |all| && all[i].RefuseCalls? && all[j].StopQueue?;
      assert steps[i].RefuseCalls?;
      if j < |steps| {
        assert steps[j].StopQueue?;
      }
    }
  }

  lemma StepCloses(s: State, step: Step)
    ensures Perform(s, step).queueStopping <==> s.queueStopping || (s.stopping && step.StopQueue?)
  {
  }

  lemma {:induction false} RunCloses(capacity: nat, workers: nat, steps: seq<Step>)
    ensures Run(Started(capacity, workers), steps).queueStopping <==> Closed(steps)
    decreases |steps|
  {
    if steps != [] {
      var n := |steps| - 1;
      var front, step := steps[..n], steps[n];
      assert steps == front + [step];
      RunCloses(capacity, workers, front);
      RunOn(Started(capacity, workers), front, step);
      RunStops(Started(capacity, workers), front);
      StepCloses(Run(Started(capacity, workers), front), step);
      ClosedStep(front, step);
    }
  }

  // ------------------------------------------------------------------ what one step decides

  /** What becomes of the message: too late once the queue was told to stop, dropped while the
      queue is full, and queued behind the others otherwise; nothing else moves. */
  ghost predicate Decided(s: State, closed: bool, capacity: nat, m: Message, next: State) {
    && next.taken == s.taken && multiset(next.checked) == multiset(s.checked) - multiset{m}
    && next.late == (if closed then s.late + [m] else s.late)
    && next.dropped == (if !closed && |s.queue| == capacity then s.dropped + [m] else s.dropped)
    && next.queue == (if !closed && |s.queue| < capacity then s.queue + [m] else s.queue)
  }

  lemma EnqueueDecides(s: State, i: nat)
    requires Inv(s) && i < |s.checked|
    ensures Decided(s, s.queueStopping, s.capacity, s.checked[i], Perform(s, Enqueue(i)))
  {
    TakenOut(s.checked, i);
  }

  lemma {:induction false} CapacityStays(s: State, steps: seq<Step>)
    ensures Run(s, steps).capacity == s.capacity
    decreases |steps|
  {
    if steps != [] {
      CapacityStays(Perform(s, steps[0]), steps[1..]);
    }
  }

  /** That is decided under the lock, whatever the order in which messages get it. */
  lemma LockDecides(capacity: nat, workers: nat, steps: seq<Step>, i: nat)
    requires i < |Run(Started(capacity, workers), steps).checked|
    ensures var s, next := Run(Started(capacity, workers), steps), Run(Started(capacity, workers), steps + [Enqueue(i)]);
            Decided(s, Closed(steps), capacity, s.checked[i], next)
  {
    RunOn(Started(capacity, workers), steps, Enqueue(i));
    RunCloses(capacity, workers, steps);
    RunKeepsInv(Started(capacity, workers), steps);
    CapacityStays(Started(capacity, workers), steps);
    EnqueueDecides(Run(Started(capacity, workers), steps), i);
  }

  /** A worker that is left takes the oldest message there is, and gives up only when there is
      none and the queue was told to stop. */
  lemma WorkerDecides(capacity: nat, workers: nat, steps: seq<Step>)
    requires Run(Started(capacity, workers), steps).exited < workers
    ensures var s := Run(Started(capacity, workers), steps);
            var took, left := Run(Started(capacity, workers), steps + [Take]), Run(Started(capacity, workers), steps + [Exit]);
            && (s.queue != [] ==> took.taken == s.taken + [s.queue[0]] && took.queue == s.queue[1..])
            && (s.queue == [] ==> took == s)
            && left.exited == (if s.queue == [] && Closed(steps) then s.exited + 1 else s.exited)
  {
    RunOn(Started(capacity, workers), steps, Take);
    RunOn(Started(capacity, workers), steps, Exit);
    RunCloses(capacity, workers, steps);
    RunKeepsInv(Started(capacity, workers), steps);
  }

  // ------------------------------------------------------------------------------- draining

  function Takes(n: nat): seq<Step> {
    if n == 0 then [] else [Take] + Takes(n - 1)
  }

  lemma {:induction false} TakesDrain(s: State, n: nat)
    requires |s.queue| == n && s.exited < s.workers
    ensures var v := Run(s, Takes(n));
            v.queue == [] && v.taken == s.taken + s.queue && v == s.(queue := [], taken := v.taken)
    decreases n
  {
    if n > 0 {
      var next := Perform(s, Take);
      assert next == s.(taken := s.taken + [s.queue[0]], queue := s.queue[1..]);
      assert Takes(n)[0] == Take && Takes(n)[1..] == Takes(n - 1);
      TakesDrain(next, n - 1);
      assert s.taken + [s.queue[0]] + s.queue[1..] == s.taken + s.queue;
    }
  }

  lemma {:induction false} RunOnAll(s: State, first: seq<Step>, rest: seq<Step>)
    ensures Run(s, first + rest) == Run(Run(s, first), rest)
    decreases |first|
  {
    if first == [] {
      assert first + rest == rest;
    } else {
      assert (first + rest)[0] == first[0] && (first + rest)[1..] == first[1..] + rest;
      RunOnAll(Perform(s, first[0]), first[1..], rest);
    }
  }

  /** As long as a worker is left, turns of workers alone empty the queue: then every welcome
      arrival has been taken, dropped, found too late, or still waits for the lock. */
  lemma WorkersDrain(capacity: nat, workers: nat, steps: seq<Step>)
    requires Run(Started(capacity, workers), steps).exited < workers
    ensures var s := Run(Started(capacity, workers), steps);
            var v := Run(Started(capacity, workers), steps + Takes(|s.queue|));
            && v.queue == [] && v.taken == s.taken + s.queue
            && multiset(v.taken) + multiset(v.dropped) + multiset(v.late) + multiset(v.checked) == multiset(Arrivals(steps))
  {
    var s := Run(Started(capacity, workers), steps);
    RunKeepsInv(Started(capacity, workers), steps);
    RunOnAll(Started(capacity, workers), steps, Takes(|s.queue|));
    TakesDrain(s, |s.queue|);
    OnlyArrivalsGetIn(capacity, workers, steps);
    assert multiset(s.taken + s.queue) == multiset(s.taken) + multiset(s.queue);
  }
}
